/** The hierarchy translator of er_translator/translation/hierarchy_translation.py.
    For every entity with a hierarchy it either collapses the hierarchy
    upwards (selectors, before-insert triggers and merged constraints on the
    father's table) or downwards (downward triggers and constraints for the
    relationships of the father), recording the SQL fragments in a
    `HierarchyChecks` accumulator. The fragments are kept as the values the
    SQL generator is given (module Sql). */
module HierarchyTranslation {
  import opened Wrappers
  import opened Choices
  import opened Text
  import C = Conceptual
  import opened Constraints
  import opened Sql
  import opened HierarchyCheckStore
  import U = Utils

  const SelectorPrefix := "TYPE_"

  /** `_get_selector_name`: the selector of one child, or the selector of the
      whole hierarchy named after all its children. */
  function SelectorName(childrenNames: seq<string>, child: Option<string>): string
  {
    match child
    case Some(name) => SelectorPrefix + name
    case None => SelectorPrefix + Concat(childrenNames)
  }

  /** Different children have different selectors. */
  lemma ChildSelectorsApart(childrenNames: seq<string>, x: string, y: string)
    requires x != y
    ensures SelectorName(childrenNames, Some(x)) != SelectorName(childrenNames, Some(y))
  {
    if SelectorPrefix + x == SelectorPrefix + y {
      PrefixCancels(SelectorPrefix, x, y);
    }
  }

  /** `_get_foreign_key_name`: the column `<other endpoint>_<key>` that a
      child's row uses to reference the other side of the relationship. */
  function ForeignKeyName(r: C.Relationship, childName: string, primaryKey: C.Attribute): string
  {
    (if r.entityFrom == childName then r.entityTo else r.entityFrom) + "_" + primaryKey.name
  }

  /** The foreign-key column names an endpoint of the relationship, and never
      the child itself when the relationship joins two different entities. */
  lemma ForeignKeyNameNamesOther(r: C.Relationship, childName: string, primaryKey: C.Attribute)
    ensures var n := ForeignKeyName(r, childName, primaryKey);
      n == r.entityFrom + "_" + primaryKey.name || n == r.entityTo + "_" + primaryKey.name
    ensures (childName == r.entityFrom || childName == r.entityTo) && r.entityFrom != r.entityTo ==>
      ForeignKeyName(r, childName, primaryKey) != childName + "_" + primaryKey.name
  {
    var other := if r.entityFrom == childName then r.entityTo else r.entityFrom;
    if other + "_" + primaryKey.name == childName + "_" + primaryKey.name {
      assert other + "_" + primaryKey.name == other + ("_" + primaryKey.name);
      assert childName + "_" + primaryKey.name == childName + ("_" + primaryKey.name);
      SuffixCancels(other, childName, "_" + primaryKey.name);
    }
  }

  /** `_is_optional_child_entity_relationship`: the child's own side of the
      relationship has minimum zero. */
  predicate IsOptionalChildRelationship(r: C.Relationship, childName: string)
  {
    (r.entityFrom == childName && r.cardinalityFrom.min == C.MinZero) ||
    (r.entityTo == childName && r.cardinalityTo.min == C.MinZero)
  }

  /** `_get_null_checks`: one "is null" check per attribute, in order. */
  function NullChecks(attributes: seq<C.Attribute>): (checks: seq<Check>)
    ensures |checks| == |attributes|
    ensures forall k :: 0 <= k < |attributes| ==> checks[k] == Check(attributes[k].name, true)
  {
    if attributes == [] then []
    else NullChecks(attributes[..|attributes| - 1]) + [Check(attributes[|attributes| - 1].name, true)]
  }

  /** The positions of the mandatory attributes (minimum cardinality one). */
  ghost function MandatoryPositions(attributes: seq<C.Attribute>): (ps: seq<nat>)
    ensures forall i :: 0 <= i < |ps| ==> ps[i] < |attributes|
  {
    if attributes == [] then []
    else
      var n := |attributes| - 1;
      MandatoryPositions(attributes[..n]) + (if attributes[n].cardinality.min == C.MinOne then [n] else [])
  }

  /** The mandatory positions are strictly increasing and are exactly the
      positions of the mandatory attributes. */
  lemma {:induction false} MandatoryPositionsExact(attributes: seq<C.Attribute>)
    ensures forall i, j :: 0 <= i < j < |MandatoryPositions(attributes)| ==>
      MandatoryPositions(attributes)[i] < MandatoryPositions(attributes)[j]
    ensures forall k :: 0 <= k < |attributes| ==>
      (k in MandatoryPositions(attributes) <==> attributes[k].cardinality.min == C.MinOne)
    decreases |attributes|
  {
    if attributes != [] {
      var n := |attributes| - 1;
      var init := attributes[..n];
      MandatoryPositionsExact(init);
      var pi := MandatoryPositions(init);
      assert MandatoryPositions(attributes) == pi + (if attributes[n].cardinality.min == C.MinOne then [n] else []);
      assert forall i :: 0 <= i < |pi| ==> pi[i] < n;
      assert n !in pi;
      forall k | 0 <= k < n
        ensures k in pi <==> attributes[k].cardinality.min == C.MinOne
      {
        assert init[k] == attributes[k];
      }
    }
  }

  /** `_get_not_null_checks`: one "is not null" check for each attribute
      whose minimum cardinality is one, in order, and none for the others. */
  function NotNullChecks(attributes: seq<C.Attribute>): (checks: seq<Check>)
    ensures |checks| <= |attributes|
    ensures |checks| == |MandatoryPositions(attributes)|
    ensures forall i :: 0 <= i < |checks| ==>
      checks[i] == Check(attributes[MandatoryPositions(attributes)[i]].name, false)
  {
    if attributes == [] then []
    else
      var last := attributes[|attributes| - 1];
      NotNullChecks(attributes[..|attributes| - 1]) + (if last.cardinality.min == C.MinOne then [Check(last.name, false)] else [])
  }

  /** Every check `NotNullChecks` produces is "is not null", and there is one
      about a name exactly when some mandatory attribute has that name. */
  lemma {:induction false} NotNullChecksSpec(attributes: seq<C.Attribute>)
    ensures forall c :: c in NotNullChecks(attributes) ==> !c.isNull
    ensures forall n :: Check(n, false) in NotNullChecks(attributes) <==>
      exists k :: 0 <= k < |attributes| && attributes[k].name == n && attributes[k].cardinality.min == C.MinOne
    decreases |attributes|
  {
    if attributes != [] {
      var init := attributes[..|attributes| - 1];
      NotNullChecksSpec(init);
      assert forall k :: 0 <= k < |init| ==> init[k] == attributes[k];
    }
  }

  /** The foreign-key columns a collapsed child gets for the father's
      identifiers: one unique single-valued column per identifier, named by
      `ForeignKeyName`, optional exactly when the child's side of the
      relationship is optional. */
  function ForeignKeyColumns(r: C.Relationship, fatherIdentifiers: seq<C.Attribute>, childName: string): (keys: seq<C.Attribute>)
    ensures |keys| == |fatherIdentifiers|
    ensures forall k :: 0 <= k < |keys| ==>
      keys[k] == C.Attribute(ForeignKeyName(r, childName, fatherIdentifiers[k]),
                             C.Cardinality(if IsOptionalChildRelationship(r, childName) then C.MinZero else C.MinOne, C.MaxOne),
                             true)
  {
    if fatherIdentifiers == [] then []
    else
      var last := fatherIdentifiers[|fatherIdentifiers| - 1];
      ForeignKeyColumns(r, fatherIdentifiers[..|fatherIdentifiers| - 1], childName) +
      [C.Attribute(ForeignKeyName(r, childName, last),
                   C.Cardinality(if IsOptionalChildRelationship(r, childName) then C.MinZero else C.MinOne, C.MaxOne),
                   true)]
  }

  /** The columns `<child>_<attribute>` a collapsed child gets for the
      relationship's attributes: optional when the relationship is optional
      for the child, else with the attribute's own minimum. */
  function RelationshipColumnsOf(attributes: seq<C.Attribute>, childName: string, optional: bool): (columns: seq<C.Attribute>)
    ensures |columns| == |attributes|
    ensures forall k :: 0 <= k < |attributes| ==>
      columns[k].Attribute? && columns[k].name == childName + "_" + attributes[k].name &&
      columns[k].cardinality.max == attributes[k].cardinality.max && columns[k].isUnique == attributes[k].isUnique &&
      columns[k].cardinality.min == (if optional then C.MinZero else attributes[k].cardinality.min)
  {
    if attributes == [] then []
    else
      var a := attributes[|attributes| - 1];
      RelationshipColumnsOf(attributes[..|attributes| - 1], childName, optional) +
      [C.Attribute(childName + "_" + a.name,
                   C.Cardinality(if optional then C.MinZero else a.cardinality.min, a.cardinality.max),
                   a.isUnique)]
  }

  function RelationshipColumns(r: C.Relationship, childName: string): seq<C.Attribute>
    reads r
  {
    RelationshipColumnsOf(r.attributes, childName, IsOptionalChildRelationship(r, childName))
  }

  /** When the relationship is optional for the child, neither its
      foreign-key columns nor its attribute columns are ever required. */
  lemma OptionalRelationshipRequiresNothing(r: C.Relationship, fatherIdentifiers: seq<C.Attribute>, childName: string)
    requires IsOptionalChildRelationship(r, childName)
    ensures NotNullChecks(ForeignKeyColumns(r, fatherIdentifiers, childName)) == []
    ensures NotNullChecks(RelationshipColumns(r, childName)) == []
  {
    var columns := RelationshipColumns(r, childName);
    assert forall k :: 0 <= k < |columns| ==> columns[k].cardinality.min == C.MinZero;
    OptionalColumnsRequireNothing(ForeignKeyColumns(r, fatherIdentifiers, childName));
    OptionalColumnsRequireNothing(columns);
  }

  /** Without a mandatory attribute there is no "is not null" check. */
  lemma {:induction false} OptionalColumnsRequireNothing(attributes: seq<C.Attribute>)
    requires forall k :: 0 <= k < |attributes| ==> attributes[k].cardinality.min == C.MinZero
    ensures NotNullChecks(attributes) == []
    decreases |attributes|
  {
    if attributes != [] {
      OptionalColumnsRequireNothing(attributes[..|attributes| - 1]);
    }
  }

  /** The checks for an entity's own identifiers then attributes: all "is
      null" checks, or the "is not null" checks of the mandatory ones. */
  function EntityChecks(e: C.Entity, isNull: bool): seq<Check>
    reads e
  {
    if isNull then NullChecks(e.identifiers) + NullChecks(e.attributes)
    else NotNullChecks(e.identifiers) + NotNullChecks(e.attributes)
  }

  /** Every child named is an entity of the diagram. */
  predicate AllKnown(entities: map<string, C.Entity>, names: seq<string>)
  {
    forall n :: n in names ==> n in entities
  }

  /** The "is null" checks of every child of `children` other than `child`,
      in hierarchy order. */
  function SiblingNullChecks(entities: map<string, C.Entity>, children: seq<string>, child: string): seq<Check>
    requires AllKnown(entities, children)
    reads entities.Values
  {
    if children == [] then []
    else
      var last := children[|children| - 1];
      assert children[..|children| - 1] <= children;
      SiblingNullChecks(entities, children[..|children| - 1], child) +
      (if last != child then EntityChecks(entities[last], true) else [])
  }

  /** The "is null" checks of every child, in hierarchy order. */
  function AllNullChecks(entities: map<string, C.Entity>, children: seq<string>): seq<Check>
    requires AllKnown(entities, children)
    reads entities.Values
  {
    if children == [] then []
    else
      assert children[..|children| - 1] <= children;
      AllNullChecks(entities, children[..|children| - 1]) + EntityChecks(entities[children[|children| - 1]], true)
  }

  /** Every identifier and attribute of every sibling is checked to be null,
      and nothing is checked to be non-null. */
  lemma {:induction false} SiblingNullChecksCover(entities: map<string, C.Entity>, children: seq<string>, child: string)
    requires AllKnown(entities, children)
    ensures forall c :: c in SiblingNullChecks(entities, children, child) ==> c.isNull
    ensures forall o, a :: (o in children && o != child &&
      (a in entities[o].identifiers || a in entities[o].attributes)) ==>
        Check(a.name, true) in SiblingNullChecks(entities, children, child)
  {
    if children != [] {
      var init := children[..|children| - 1];
      var last := children[|children| - 1];
      assert init <= children;
      SiblingNullChecksCover(entities, init, child);
      var before := SiblingNullChecks(entities, init, child);
      forall o, a | o in children && o != child && (a in entities[o].identifiers || a in entities[o].attributes)
        ensures Check(a.name, true) in SiblingNullChecks(entities, children, child)
      {
        if o == last {
          var e := entities[o];
          if a in e.identifiers {
            var k :| 0 <= k < |e.identifiers| && e.identifiers[k] == a;
            assert NullChecks(e.identifiers)[k] == Check(a.name, true);
          } else {
            var k :| 0 <= k < |e.attributes| && e.attributes[k] == a;
            assert NullChecks(e.attributes)[k] == Check(a.name, true);
          }
        } else {
          assert o in init;
        }
      }
    }
  }

  /** Every check of `AllNullChecks` is a null check. */
  lemma {:induction false} AllNullChecksAreNull(entities: map<string, C.Entity>, children: seq<string>)
    requires AllKnown(entities, children)
    ensures forall c :: c in AllNullChecks(entities, children) ==> c.isNull
  {
    if children != [] {
      assert children[..|children| - 1] <= children;
      AllNullChecksAreNull(entities, children[..|children| - 1]);
    }
  }

  /** The condition of one child of a disjoint hierarchy: the child's own
      mandatory columns are set; the relationship's columns are set when the
      child is the one the relationship connects and null otherwise; every
      sibling's columns are null. */
  function DisjointChildCondition(entities: map<string, C.Entity>, children: seq<string>, child: string,
                                  connectedName: string, keys: seq<C.Attribute>, columns: seq<C.Attribute>): ConditionValue
    requires AllKnown(entities, children) && child in entities
    reads entities.Values
  {
    ConditionValue(child,
      EntityChecks(entities[child], false) +
      (if child == connectedName then NotNullChecks(keys) + NotNullChecks(columns)
       else NullChecks(keys) + NullChecks(columns)) +
      SiblingNullChecks(entities, children, child))
  }

  /** The child conditions, in the order of `iterated`. */
  function DisjointChildConditions(entities: map<string, C.Entity>, children: seq<string>, iterated: seq<string>,
                                   connectedName: string, keys: seq<C.Attribute>, columns: seq<C.Attribute>): (cs: seq<ConditionValue>)
    requires AllKnown(entities, children) && AllKnown(entities, iterated)
    reads entities.Values
    ensures |cs| == |iterated|
    ensures forall k :: 0 <= k < |iterated| ==>
      cs[k] == DisjointChildCondition(entities, children, iterated[k], connectedName, keys, columns)
  {
    if iterated == [] then []
    else
      var init := iterated[..|iterated| - 1];
      assert forall k :: 0 <= k < |init| ==> init[k] == iterated[k];
      DisjointChildConditions(entities, children, init, connectedName, keys, columns) +
      [DisjointChildCondition(entities, children, iterated[|iterated| - 1], connectedName, keys, columns)]
  }

  /** `_get_sql_constraint_values_disjoint`: one condition per child, in
      hierarchy order, selected by the child's name, then for a partial
      hierarchy a condition selected by the father's name in which every
      child column and every relationship column is null. */
  function DisjointConditions(entities: map<string, C.Entity>, r: C.Relationship, father: C.Entity,
                              connected: C.Entity): seq<ConditionValue>
    requires father.hierarchy != null && AllKnown(entities, father.hierarchy.children)
    reads entities.Values, r, father, father.hierarchy
  {
    var keys := ForeignKeyColumns(r, father.identifiers, connected.name);
    var columns := RelationshipColumns(r, connected.name);
    var children := father.hierarchy.children;
    DisjointChildConditions(entities, children, children, connected.name, keys, columns) +
    (if father.hierarchy.completeness == C.Partial
     then [ConditionValue(father.name, AllNullChecks(entities, children) + NullChecks(keys) + NullChecks(columns))]
     else [])
  }

  /** Every check of `NullChecks` is a null check. */
  lemma NullChecksAreNull(attributes: seq<C.Attribute>)
    ensures forall c :: c in NullChecks(attributes) ==> c.isNull
  {
    forall c | c in NullChecks(attributes)
      ensures c.isNull
    {
      var k :| 0 <= k < |NullChecks(attributes)| && NullChecks(attributes)[k] == c;
    }
  }

  /** An entity's "not null" checks are all "is not null", its null checks
      all "is null", and every column of the entity has a null check. */
  lemma EntityChecksSigns(e: C.Entity)
    ensures forall c :: c in EntityChecks(e, false) ==> !c.isNull
    ensures forall c :: c in EntityChecks(e, true) ==> c.isNull
    ensures forall a :: a in e.identifiers + e.attributes ==> Check(a.name, true) in EntityChecks(e, true)
  {
    NullChecksAreNull(e.identifiers);
    NullChecksAreNull(e.attributes);
    NotNullChecksSpec(e.identifiers);
    NotNullChecksSpec(e.attributes);
    forall a | a in e.identifiers + e.attributes
      ensures Check(a.name, true) in EntityChecks(e, true)
    {
      if a in e.identifiers {
        var k :| 0 <= k < |e.identifiers| && e.identifiers[k] == a;
        assert NullChecks(e.identifiers)[k] == Check(a.name, true);
      } else {
        var k :| 0 <= k < |e.attributes| && e.attributes[k] == a;
        assert NullChecks(e.attributes)[k] == Check(a.name, true);
      }
    }
  }

  /** A disjoint hierarchy's conditions: one per child, in order and selected
      by the child's name, followed, exactly when the hierarchy is partial,
      by one selected by the father's name that holds null checks only. */
  lemma DisjointConditionsShape(entities: map<string, C.Entity>, r: C.Relationship, father: C.Entity, connected: C.Entity)
    requires father.hierarchy != null && AllKnown(entities, father.hierarchy.children)
    ensures var cs := DisjointConditions(entities, r, father, connected);
      var children := father.hierarchy.children;
      |cs| == |children| + (if father.hierarchy.completeness == C.Partial then 1 else 0) &&
      (forall k :: 0 <= k < |children| ==> cs[k].selectorValue == children[k]) &&
      (father.hierarchy.completeness == C.Partial ==>
        cs[|children|].selectorValue == father.name && forall c :: c in cs[|children|].checks ==> c.isNull)
  {
    var children := father.hierarchy.children;
    var keys := ForeignKeyColumns(r, father.identifiers, connected.name);
    var columns := RelationshipColumns(r, connected.name);
    AllNullChecksAreNull(entities, children);
    NullChecksAreNull(keys);
    NullChecksAreNull(columns);
  }

  /** The checks of one child's condition: every identifier and attribute of
      every sibling is null; the key and relationship columns are required
      (those that are mandatory) for the connected child and null for the
      others. */
  lemma DisjointChildConditionCover(entities: map<string, C.Entity>, children: seq<string>, child: string,
                                    connectedName: string, keys: seq<C.Attribute>, columns: seq<C.Attribute>)
    requires AllKnown(entities, children) && child in entities
    ensures var checks := DisjointChildCondition(entities, children, child, connectedName, keys, columns).checks;
      (forall o, a :: (o in children && o != child &&
        (a in entities[o].identifiers || a in entities[o].attributes)) ==> Check(a.name, true) in checks) &&
      (child == connectedName ==>
        forall a :: a in keys + columns && a.cardinality.min == C.MinOne ==> Check(a.name, false) in checks) &&
      (child != connectedName ==>
        forall a :: a in keys + columns ==> Check(a.name, true) in checks)
  {
    var checks := DisjointChildCondition(entities, children, child, connectedName, keys, columns).checks;
    NotNullChecksSpec(keys);
    NotNullChecksSpec(columns);
    SiblingNullChecksCover(entities, children, child);
    if child == connectedName {
      forall a: C.Attribute | a in keys + columns && a.cardinality.min == C.MinOne
        ensures Check(a.name, false) in checks
      {
        if a in keys {
          var i :| 0 <= i < |keys| && keys[i] == a;
          assert Check(a.name, false) in NotNullChecks(keys);
        } else {
          var i :| 0 <= i < |columns| && columns[i] == a;
          assert Check(a.name, false) in NotNullChecks(columns);
        }
      }
    } else {
      forall a: C.Attribute | a in keys + columns
        ensures Check(a.name, true) in checks
      {
        if a in keys {
          var i :| 0 <= i < |keys| && keys[i] == a;
          assert NullChecks(keys)[i] == Check(a.name, true);
        } else {
          var i :| 0 <= i < |columns| && columns[i] == a;
          assert NullChecks(columns)[i] == Check(a.name, true);
        }
      }
    }
  }

  /** Inside the condition of the `k`-th child of a disjoint hierarchy, every
      identifier and attribute of every sibling is checked to be null; the
      relationship's foreign-key and attribute columns are required (those
      that are mandatory) for the connected child and all null for the
      others. */
  lemma DisjointChildConditionChecks(entities: map<string, C.Entity>, r: C.Relationship, father: C.Entity,
                                     connected: C.Entity, k: nat)
    requires father.hierarchy != null && AllKnown(entities, father.hierarchy.children)
    requires k < |father.hierarchy.children|
    ensures var children := father.hierarchy.children;
      var checks := DisjointConditions(entities, r, father, connected)[k].checks;
      var keys := ForeignKeyColumns(r, father.identifiers, connected.name);
      var columns := RelationshipColumns(r, connected.name);
      (forall o, a :: (o in children && o != children[k] &&
        (a in entities[o].identifiers || a in entities[o].attributes)) ==> Check(a.name, true) in checks) &&
      (children[k] == connected.name ==>
        forall a :: a in keys + columns && a.cardinality.min == C.MinOne ==> Check(a.name, false) in checks) &&
      (children[k] != connected.name ==>
        forall a :: a in keys + columns ==> Check(a.name, true) in checks)
  {
    var children := father.hierarchy.children;
    var keys := ForeignKeyColumns(r, father.identifiers, connected.name);
    var columns := RelationshipColumns(r, connected.name);
    assert DisjointConditions(entities, r, father, connected)[k] ==
           DisjointChildCondition(entities, children, children[k], connected.name, keys, columns);
    DisjointChildConditionCover(entities, children, children[k], connected.name, keys, columns);
  }

  /** `_get_sql_constraint_values_overlapping`: a "1" condition on the
      connected child's own selector followed by a "0" condition. */
  function OverlappingConditions(r: C.Relationship, father: C.Entity, connected: C.Entity): seq<ConditionValue>
    reads r, father, connected
  {
    var keys := ForeignKeyColumns(r, father.identifiers, connected.name);
    var columns := RelationshipColumns(r, connected.name);
    [ConditionValue("1", EntityChecks(connected, false) + NotNullChecks(keys) + NotNullChecks(columns)),
     ConditionValue("0", EntityChecks(connected, true) + NullChecks(keys) + NullChecks(columns))]
  }

  /** Exactly two conditions: "1" requires the connected child's mandatory
      columns and the relationship's mandatory columns to be filled, "0"
      requires every one of those columns, the child's included, to be null. */
  lemma OverlappingConditionsSigns(r: C.Relationship, father: C.Entity, connected: C.Entity)
    ensures var cs := OverlappingConditions(r, father, connected);
      |cs| == 2 && cs[0].selectorValue == "1" && cs[1].selectorValue == "0" &&
      (forall c :: c in cs[0].checks ==> !c.isNull) &&
      (forall c :: c in cs[1].checks ==> c.isNull) &&
      (forall a :: a in connected.identifiers + connected.attributes ==> Check(a.name, true) in cs[1].checks)
  {
    EntityChecksSigns(connected);
    NullChecksAreNull(ForeignKeyColumns(r, father.identifiers, connected.name));
    NullChecksAreNull(RelationshipColumns(r, connected.name));
    NotNullChecksSpec(ForeignKeyColumns(r, father.identifiers, connected.name));
    NotNullChecksSpec(RelationshipColumns(r, connected.name));
  }

  /** `_get_sql_constraint_values_overlapping_child`: a "1" condition
      followed by a "0" condition. */
  function OverlappingChildConditions(child: C.Entity): seq<ConditionValue>
    reads child
  {
    [ConditionValue("1", EntityChecks(child, false)), ConditionValue("0", EntityChecks(child, true))]
  }

  /** Exactly two conditions: "1" requires the child's mandatory columns to be
      filled and "0" requires all of the child's columns to be null. */
  lemma OverlappingChildConditionsSigns(child: C.Entity)
    ensures var cs := OverlappingChildConditions(child);
      |cs| == 2 && cs[0].selectorValue == "1" && cs[1].selectorValue == "0" &&
      (forall c :: c in cs[0].checks ==> !c.isNull) &&
      (forall c :: c in cs[1].checks ==> c.isNull) &&
      (forall a :: a in child.identifiers + child.attributes ==> Check(a.name, true) in cs[1].checks)
  {
    EntityChecksSigns(child);
  }

  /** The constraint an overlapping hierarchy gets for one child: named after
      the child, on the child's selector, with the relationship's conditions
      for the connected child and the child's own conditions otherwise. */
  function OverlappingConstraintValue(entities: map<string, C.Entity>, r: C.Relationship, father: C.Entity,
                                      connected: C.Entity, child: string): ConstraintValue
    requires father.hierarchy != null && child in entities
    reads entities.Values, r, father, father.hierarchy, connected
  {
    ConstraintValue(father.name, child, SelectorName(father.hierarchy.children, Some(entities[child].name)),
                    if child == connected.name then OverlappingConditions(r, father, connected)
                    else OverlappingChildConditions(entities[child]))
  }

  function OverlappingConstraintValues(entities: map<string, C.Entity>, r: C.Relationship, father: C.Entity,
                                       connected: C.Entity, iterated: seq<string>): (cs: seq<ConstraintValue>)
    requires father.hierarchy != null && AllKnown(entities, iterated)
    reads entities.Values, r, father, father.hierarchy, connected
    ensures |cs| == |iterated|
  {
    if iterated == [] then []
    else
      var init := iterated[..|iterated| - 1];
      OverlappingConstraintValues(entities, r, father, connected, init) +
      [OverlappingConstraintValue(entities, r, father, connected, iterated[|iterated| - 1])]
  }

  /** The constraint at position `k` is the one for the `k`-th child. */
  lemma {:induction false} OverlappingConstraintValuesAt(entities: map<string, C.Entity>, r: C.Relationship,
                                                         father: C.Entity, connected: C.Entity, iterated: seq<string>, k: nat)
    requires father.hierarchy != null && AllKnown(entities, iterated) && k < |iterated|
    ensures OverlappingConstraintValues(entities, r, father, connected, iterated)[k] ==
            OverlappingConstraintValue(entities, r, father, connected, iterated[k])
    decreases |iterated|
  {
    var init := iterated[..|iterated| - 1];
    var last := OverlappingConstraintValue(entities, r, father, connected, iterated[|iterated| - 1]);
    var front := OverlappingConstraintValues(entities, r, father, connected, init);
    assert OverlappingConstraintValues(entities, r, father, connected, iterated) == front + [last];
    if k < |init| {
      OverlappingConstraintValuesAt(entities, r, father, connected, init, k);
      assert init[k] == iterated[k];
      assert (front + [last])[k] == front[k];
    } else {
      assert k == |iterated| - 1;
      assert (front + [last])[k] == last;
    }
  }

  /** Adding constraints leaves the diagram alone, so the constraints computed
      before are still the ones computed after. */
  twostate lemma OverlappingConstraintValuesFramed(new entities: map<string, C.Entity>, new r: C.Relationship,
                                                   new father: C.Entity, new connected: C.Entity, new iterated: seq<string>)
    requires old(allocated(entities)) && old(allocated(r)) && old(allocated(father)) && old(allocated(connected))
    requires unchanged(entities.Values) && unchanged(r, father, connected) && old(father.hierarchy) != null
    requires unchanged(father.hierarchy) && AllKnown(entities, iterated)
    ensures old(OverlappingConstraintValues(entities, r, father, connected, iterated)) ==
            OverlappingConstraintValues(entities, r, father, connected, iterated)
  {
  }

  /** The constraints `_create_sql_constraint` hands to `_add_constraint`. */
  function SqlConstraintValues(entities: map<string, C.Entity>, r: C.Relationship, father: C.Entity,
                               connected: C.Entity): seq<ConstraintValue>
    requires father.hierarchy != null && AllKnown(entities, father.hierarchy.children)
    reads entities.Values, r, father, father.hierarchy, connected
  {
    var children := father.hierarchy.children;
    if father.hierarchy.disjointness == C.Overlapping then
      OverlappingConstraintValues(entities, r, father, connected, children)
    else
      [ConstraintValue(father.name, Concat(children), SelectorName(children, None),
                       DisjointConditions(entities, r, father, connected))]
  }
  /** Likewise for all the constraints of one call. */
  twostate lemma SqlConstraintValuesFramed(new entities: map<string, C.Entity>, new r: C.Relationship,
                                           new father: C.Entity, new connected: C.Entity)
    requires old(allocated(entities)) && old(allocated(r)) && old(allocated(father)) && old(allocated(connected))
    requires unchanged(entities.Values) && unchanged(r, father, connected) && old(father.hierarchy) != null
    requires unchanged(father.hierarchy) && AllKnown(entities, father.hierarchy.children)
    ensures old(SqlConstraintValues(entities, r, father, connected)) == SqlConstraintValues(entities, r, father, connected)
  {
  }


  /** An overlapping hierarchy gets one constraint per child, named after the
      child and on the child's selector, each with a "1" and a "0" condition;
      a disjoint one gets a single constraint named after all the children,
      on the hierarchy's selector. Every constraint belongs to the father. */
  lemma SqlConstraintValuesShape(entities: map<string, C.Entity>, r: C.Relationship, father: C.Entity, connected: C.Entity)
    requires father.hierarchy != null && AllKnown(entities, father.hierarchy.children)
    requires forall n :: n in entities ==> entities[n].name == n
    ensures var cs := SqlConstraintValues(entities, r, father, connected);
      var children := father.hierarchy.children;
      (forall c :: c in cs ==> c.entityName == father.name) &&
      (father.hierarchy.disjointness == C.Overlapping ==>
        |cs| == |children| &&
        forall k :: 0 <= k < |children| ==>
          cs[k].constraintName == children[k] && cs[k].selectorName == SelectorName(children, Some(children[k])) &&
          |cs[k].conditions| == 2 && cs[k].conditions[0].selectorValue == "1" && cs[k].conditions[1].selectorValue == "0") &&
      (father.hierarchy.disjointness == C.Disjoint ==>
        |cs| == 1 && cs[0].constraintName == Concat(children) && cs[0].selectorName == SelectorName(children, None))
  {
    var cs := SqlConstraintValues(entities, r, father, connected);
    var children := father.hierarchy.children;
    if father.hierarchy.disjointness == C.Overlapping {
      forall k | 0 <= k < |children|
        ensures cs[k] == OverlappingConstraintValue(entities, r, father, connected, children[k])
      {
        OverlappingConstraintValuesAt(entities, r, father, connected, children, k);
      }
      forall c | c in cs
        ensures c.entityName == father.name
      {
        var k :| 0 <= k < |cs| && cs[k] == c;
      }
    }
  }

  /** `_create_sql_trigger`: a before-insert trigger on the child's selector
      for an overlapping hierarchy, on the hierarchy's selector otherwise. */
  function BeforeInsert(r: C.Relationship, tableName: string, father: C.Entity, connectedChild: string,
                        otherChild: Option<string>, identifierModifier: string): Trigger
    requires father.hierarchy != null
    reads father, father.hierarchy
  {
    var children := father.hierarchy.children;
    var selector := if father.hierarchy.disjointness == C.Overlapping then SelectorName(children, Some(connectedChild))
                    else SelectorName(children, None);
    BeforeInsertTrigger(r.name, tableName, father.name, connectedChild, selector, otherChild, identifierModifier)
  }

  /** One step of the translator's observable output. */
  datatype Effect =
    | SelectorAdded(entityName: string, selector: Selector)
    | SqlConstraintAdded(entityName: string, sqlConstraint: SqlConstraint)
    | TriggerAdded(trigger: Trigger)
    | ConstraintMerged(constraint: ConstraintValue)

  /** What the translator has produced so far: the three lists of its
      `HierarchyChecks` and its dictionary of constraints by name, with the
      dictionary's insertion order. */
  datatype Output = Output(selectors: seq<(string, Selector)>, sqlConstraints: seq<(string, SqlConstraint)>,
                           triggers: seq<Trigger>, constraints: map<string, ConstraintValue>,
                           constraintOrder: seq<string>)

  /** `_add_constraint` on values: a constraint whose name is already known
      has its conditions merged into the known one (`add_conditions`), which
      keeps its entity and selector; a new name is inserted at the end. */
  function ApplyOne(o: Output, e: Effect): Output
  {
    match e
    case SelectorAdded(n, s) => o.(selectors := o.selectors + [(n, s)])
    case SqlConstraintAdded(n, c) => o.(sqlConstraints := o.sqlConstraints + [(n, c)])
    case TriggerAdded(t) => o.(triggers := o.triggers + [t])
    case ConstraintMerged(c) =>
      if c.constraintName in o.constraints then
        var known := o.constraints[c.constraintName];
        o.(constraints := o.constraints[c.constraintName :=
             known.(conditions := MergeConditions(known.conditions, c.conditions))])
      else
        o.(constraints := o.constraints[c.constraintName := c], constraintOrder := o.constraintOrder + [c.constraintName])
  }

  function Apply(o: Output, effects: seq<Effect>): Output
  {
    if effects == [] then o else ApplyOne(Apply(o, effects[..|effects| - 1]), effects[|effects| - 1])
  }

  lemma {:induction false} ApplyConcat(o: Output, first: seq<Effect>, second: seq<Effect>)
    ensures Apply(o, first + second) == Apply(Apply(o, first), second)
  {
    if second == [] {
      assert first + second == first;
    } else {
      var init := second[..|second| - 1];
      ApplyConcat(o, first, init);
      assert (first + second)[..|first + second| - 1] == first + init;
      assert (first + second)[|first + second| - 1] == second[|second| - 1];
    }
  }

  lemma ApplySnoc(o: Output, effects: seq<Effect>, e: Effect)
    ensures Apply(o, effects + [e]) == ApplyOne(Apply(o, effects), e)
  {
    assert (effects + [e])[..|effects|] == effects;
  }

  /** Concatenation regroups; a lemma of its own keeps the regrouping out of
      the larger proofs that need it. */
  lemma AppendAssoc<T>(a: seq<T>, b: seq<T>, c: seq<T>)
    ensures a + b + c == a + (b + c)
  {
  }

  lemma ApplySingle(o: Output, e: Effect)
    ensures Apply(o, [e]) == ApplyOne(o, e)
  {
    assert [e][..0] == [];
  }

  lemma ApplyTrigger(o: Output, t: Trigger)
    ensures Apply(o, [TriggerAdded(t)]) == o.(triggers := o.triggers + [t])
  {
    assert [TriggerAdded(t)][..0] == [];
  }

  /** The constraint dictionary holds at most one constraint per name: its
      order lists every name once, and each constraint sits under its own
      name. */
  ghost predicate ConstraintsKept(constraints: map<string, ConstraintValue>, order: seq<string>)
  {
    (forall i, j :: 0 <= i < j < |order| ==> order[i] != order[j]) &&
    (forall n :: n in constraints <==> n in order) &&
    (forall n :: n in constraints ==> constraints[n].constraintName == n)
  }

  /** Producing output only ever appends to the three lists, and keeps one
      constraint per name. */
  lemma {:induction false} ApplyKeepsConstraints(o: Output, effects: seq<Effect>)
    requires ConstraintsKept(o.constraints, o.constraintOrder)
    ensures var p := Apply(o, effects);
      ConstraintsKept(p.constraints, p.constraintOrder) &&
      o.selectors <= p.selectors && o.sqlConstraints <= p.sqlConstraints && o.triggers <= p.triggers &&
      o.constraintOrder <= p.constraintOrder
  {
    if effects != [] {
      ApplyKeepsConstraints(o, effects[..|effects| - 1]);
    }
  }

  function Merged(cs: seq<ConstraintValue>): (es: seq<Effect>)
    ensures |es| == |cs|
    ensures forall k :: 0 <= k < |cs| ==> es[k] == ConstraintMerged(cs[k])
  {
    if cs == [] then [] else Merged(cs[..|cs| - 1]) + [ConstraintMerged(cs[|cs| - 1])]
  }

  lemma MergedStep(cs: seq<ConstraintValue>, i: nat)
    requires i < |cs|
    ensures Merged(cs[..i + 1]) == Merged(cs[..i]) + [ConstraintMerged(cs[i])]
  {
    assert cs[..i + 1][..i] == cs[..i];
  }

  function Fired(ts: seq<Trigger>): (es: seq<Effect>)
    ensures |es| == |ts|
    ensures forall k :: 0 <= k < |ts| ==> es[k] == TriggerAdded(ts[k])
  {
    if ts == [] then [] else Fired(ts[..|ts| - 1]) + [TriggerAdded(ts[|ts| - 1])]
  }

  /** Firing triggers appends them, in order, and changes nothing else. */
  lemma {:induction false} ApplyFired(o: Output, ts: seq<Trigger>)
    ensures Apply(o, Fired(ts)) == o.(triggers := o.triggers + ts)
  {
    if ts != [] {
      var init := ts[..|ts| - 1];
      ApplyFired(o, init);
      assert Fired(ts) == Fired(init) + [TriggerAdded(ts[|ts| - 1])];
      assert Fired(ts)[..|ts| - 1] == Fired(init);
      assert Apply(o, Fired(ts)) == ApplyOne(Apply(o, Fired(init)), TriggerAdded(ts[|ts| - 1]));
      assert o.triggers + init + [ts[|ts| - 1]] == o.triggers + ts;
    }
  }

  /** The triggers among some effects, in order. */
  function TriggersOf(effects: seq<Effect>): seq<Trigger>
  {
    if effects == [] then []
    else
      var last := effects[|effects| - 1];
      TriggersOf(effects[..|effects| - 1]) + (if last.TriggerAdded? then [last.trigger] else [])
  }

  /** Applying effects appends exactly their triggers to the trigger list. */
  lemma {:induction false} ApplyTriggers(o: Output, effects: seq<Effect>)
    ensures Apply(o, effects).triggers == o.triggers + TriggersOf(effects)
  {
    if effects != [] {
      ApplyTriggers(o, effects[..|effects| - 1]);
    }
  }

  predicate BothMany(r: C.Relationship)
  {
    r.cardinalityFrom.max == C.MaxMany && r.cardinalityTo.max == C.MaxMany
  }

  function ConstraintEffects(entities: map<string, C.Entity>, r: C.Relationship, father: C.Entity,
                             connected: C.Entity): seq<Effect>
    requires father.hierarchy != null && AllKnown(entities, father.hierarchy.children)
    reads entities.Values, r, father, father.hierarchy, connected
  {
    Merged(SqlConstraintValues(entities, r, father, connected))
  }

  function Fire(r: C.Relationship, tableName: string, father: C.Entity, connectedChild: string,
                otherChild: Option<string>, identifierModifier: string): Effect
    requires father.hierarchy != null
    reads father, father.hierarchy
  {
    TriggerAdded(BeforeInsert(r, tableName, father, connectedChild, otherChild, identifierModifier))
  }

  /** `_check_recursive_relationship_child_cardinality`: a many-to-many loop
      on a child gets two triggers on the relationship's table, told apart by
      "_A" and "_B"; any other loop gets one trigger on the father's table
      and the child's constraint. */
  function RecursiveEffects(entities: map<string, C.Entity>, r: C.Relationship, father: C.Entity,
                            child: C.Entity): seq<Effect>
    requires father.hierarchy != null && AllKnown(entities, father.hierarchy.children)
    reads entities.Values, r, father, father.hierarchy, child
  {
    if BothMany(r) then
      [Fire(r, r.name, father, child.name, Some(child.name), "_A"),
       Fire(r, r.name, father, child.name, Some(child.name), "_B")]
    else [Fire(r, father.name, father, child.name, Some(child.name), "")] + ConstraintEffects(entities, r, father, child)
  }

  /** The generator call `_create_sql_trigger` makes for a trigger, as
      written (hierarchy_translation.py:178-183): the relationship, table,
      father, connected child and selector, then the other child when there
      is one, then the identifier modifier when it is not empty. The
      generator accepts at most six of them. */
  function TriggerCallAsWritten(t: Trigger): (r: Outcome<CallError>)
    requires t.BeforeInsertTrigger?
    ensures r.Pass? <==> t.otherChild.None? || t.identifierModifier == ""
    ensures r.Fail? ==> r.error == TypeError
  {
    GeneratorCall("create_sql_trigger_before_insert",
                  if t.otherChild.None? then 5 else if t.identifierModifier == "" then 6 else 7)
  }

  /** As written, the triggers of a loop relationship on a child raise
      TypeError exactly when the loop is many-to-many, because only then is
      an identifier modifier passed on. */
  lemma RecursiveTriggersAsWritten(entities: map<string, C.Entity>, r: C.Relationship, father: C.Entity, child: C.Entity)
    requires father.hierarchy != null && AllKnown(entities, father.hierarchy.children)
    ensures forall e :: e in RecursiveEffects(entities, r, father, child) && e.TriggerAdded? ==>
      e.trigger.BeforeInsertTrigger? && (TriggerCallAsWritten(e.trigger).Fail? <==> BothMany(r))
    ensures exists e :: e in RecursiveEffects(entities, r, father, child) && e.TriggerAdded?
  {
    var es := RecursiveEffects(entities, r, father, child);
    assert es[0] in es;
    if !BothMany(r) {
      assert es == [es[0]] + ConstraintEffects(entities, r, father, child);
    }
  }

  /** The two triggers of a many-to-many loop on a child are the same but for
      the identifier modifier, "_A" on the first and "_B" on the second,
      which is what tells them apart. */
  lemma RecursiveTriggersApart(entities: map<string, C.Entity>, r: C.Relationship, father: C.Entity, child: C.Entity)
    requires father.hierarchy != null && AllKnown(entities, father.hierarchy.children) && BothMany(r)
    ensures var es := RecursiveEffects(entities, r, father, child);
      |es| == 2 && es[0].TriggerAdded? && es[1].TriggerAdded? &&
      es[0].trigger.BeforeInsertTrigger? && es[1].trigger.BeforeInsertTrigger? &&
      es[0].trigger.identifierModifier == "_A" && es[1].trigger.identifierModifier == "_B" &&
      es[0].trigger.(identifierModifier := "_B") == es[1].trigger && es[0] != es[1]
  {
  }

  /** `_check_relationship_cardinality_both_child`: between two children, a
      many-to-many relationship gets one trigger per direction on its own
      table; otherwise the child on the one side gets the constraint and
      the trigger on the father's table starts from the other child. */
  function BothChildEffects(entities: map<string, C.Entity>, r: C.Relationship, father: C.Entity): seq<Effect>
    requires father.hierarchy != null && AllKnown(entities, father.hierarchy.children)
    requires r.entityFrom in entities && r.entityTo in entities
    reads entities.Values, r, father, father.hierarchy
  {
    var from := entities[r.entityFrom];
    var to := entities[r.entityTo];
    if from.name == to.name then RecursiveEffects(entities, r, father, from)
    else if BothMany(r) then
      [Fire(r, r.name, father, from.name, Some(to.name), ""), Fire(r, r.name, father, to.name, Some(from.name), "")]
    else if r.cardinalityFrom.max == C.MaxMany then
      [Fire(r, father.name, father, from.name, Some(to.name), "")] + ConstraintEffects(entities, r, father, to)
    else
      [Fire(r, father.name, father, to.name, Some(from.name), "")] + ConstraintEffects(entities, r, father, from)
  }

  /** `_check_relationship_cardinality_from_child`. */
  function FromChildEffects(entities: map<string, C.Entity>, r: C.Relationship, father: C.Entity): seq<Effect>
    requires father.hierarchy != null && AllKnown(entities, father.hierarchy.children)
    requires r.entityFrom in entities && r.entityTo in entities
    reads entities.Values, r, father, father.hierarchy
  {
    var from := entities[r.entityFrom];
    var to := entities[r.entityTo];
    if BothMany(r) then [Fire(r, r.name, father, from.name, None, "")]
    else if r.cardinalityFrom.max == C.MaxMany then [Fire(r, to.name, father, from.name, None, "")]
    else ConstraintEffects(entities, r, father, from)
  }

  /** `_check_relationship_cardinality_to_child`. */
  function ToChildEffects(entities: map<string, C.Entity>, r: C.Relationship, father: C.Entity): seq<Effect>
    requires father.hierarchy != null && AllKnown(entities, father.hierarchy.children)
    requires r.entityFrom in entities && r.entityTo in entities
    reads entities.Values, r, father, father.hierarchy
  {
    var from := entities[r.entityFrom];
    var to := entities[r.entityTo];
    if BothMany(r) then [Fire(r, r.name, father, to.name, None, "")]
    else if r.cardinalityFrom.max == C.MaxMany then ConstraintEffects(entities, r, father, to)
    else [Fire(r, from.name, father, to.name, None, "")]
  }

  /** `_check_relationship`: dispatch on which endpoints are children. */
  function CheckRelationshipEffects(entities: map<string, C.Entity>, r: C.Relationship, childrenNames: seq<string>,
                                    father: C.Entity): seq<Effect>
    requires father.hierarchy != null && AllKnown(entities, father.hierarchy.children)
    requires r.entityFrom in entities && r.entityTo in entities
    reads entities.Values, r, father, father.hierarchy
  {
    if r.entityFrom in childrenNames && r.entityTo in childrenNames then BothChildEffects(entities, r, father)
    else if r.entityFrom in childrenNames then FromChildEffects(entities, r, father)
    else ToChildEffects(entities, r, father)
  }

  /** Every relationship of the diagram joins two of its entities. */
  predicate Joined(entities: map<string, C.Entity>, relationships: map<string, C.Relationship>, keys: seq<string>)
  {
    forall k :: k in keys ==>
      k in relationships && relationships[k].entityFrom in entities && relationships[k].entityTo in entities
  }

  /** The loop of `_create_constraint_and_trigger` over the relationships
      (named by `keys`) that touch a child. */
  function ConnectedEffects(entities: map<string, C.Entity>, relationships: map<string, C.Relationship>,
                            keys: seq<string>, father: C.Entity): seq<Effect>
    requires father.hierarchy != null && AllKnown(entities, father.hierarchy.children)
    requires Joined(entities, relationships, keys)
    reads entities.Values, relationships.Values, father, father.hierarchy
  {
    if keys == [] then []
    else
      var last := keys[|keys| - 1];
      assert keys[..|keys| - 1] <= keys;
      ConnectedEffects(entities, relationships, keys[..|keys| - 1], father) +
      CheckRelationshipEffects(entities, relationships[last], father.hierarchy.children, father)
  }

  lemma ConnectedEffectsStep(entities: map<string, C.Entity>, relationships: map<string, C.Relationship>,
                             keys: seq<string>, father: C.Entity, i: nat)
    requires father.hierarchy != null && AllKnown(entities, father.hierarchy.children)
    requires i < |keys| && Joined(entities, relationships, keys)
    ensures ConnectedEffects(entities, relationships, keys[..i + 1], father) ==
            ConnectedEffects(entities, relationships, keys[..i], father) +
            CheckRelationshipEffects(entities, relationships[keys[i]], father.hierarchy.children, father)
  {
    assert keys[..i + 1][..i] == keys[..i];
  }

  /** Checking a relationship leaves the diagram alone, so the effects
      computed before are still the ones computed after. */
  twostate lemma ConnectedEffectsFramed(new entities: map<string, C.Entity>, new relationships: map<string, C.Relationship>,
                                        new keys: seq<string>, father: C.Entity)
    requires old(allocated(entities)) && old(allocated(relationships))
    requires unchanged(entities.Values) && unchanged(relationships.Values) && unchanged(father)
    requires old(father.hierarchy) != null && unchanged(father.hierarchy)
    requires AllKnown(entities, father.hierarchy.children) && Joined(entities, relationships, keys)
    ensures old(ConnectedEffects(entities, relationships, keys, father)) == ConnectedEffects(entities, relationships, keys, father)
  {
  }

  /** The keys of `_create_selectors`' dictionary for an overlapping
      hierarchy: one "TYPE_<child>" per child, a repeated child adding
      nothing. */
  function OverlappingSelectorNames(children: seq<string>): seq<string>
  {
    if children == [] then []
    else
      var names := OverlappingSelectorNames(children[..|children| - 1]);
      var name := SelectorPrefix + children[|children| - 1];
      if name in names then names else names + [name]
  }

  /** For children without repetitions, there is exactly one selector name
      per child, in hierarchy order. */
  lemma {:induction false} OverlappingSelectorNamesOfDistinct(children: seq<string>)
    requires U.Distinct(children)
    ensures var names := OverlappingSelectorNames(children);
      |names| == |children| && forall k :: 0 <= k < |children| ==> names[k] == SelectorName(children, Some(children[k]))
  {
    if children != [] {
      var init := children[..|children| - 1];
      var last := children[|children| - 1];
      OverlappingSelectorNamesOfDistinct(init);
      var names := OverlappingSelectorNames(init);
      forall k | 0 <= k < |names|
        ensures names[k] != SelectorPrefix + last
      {
        assert children[k] == init[k];
        if names[k] == SelectorPrefix + last {
          PrefixCancels(SelectorPrefix, init[k], last);
        }
      }
    }
  }

  /** The overlapping hierarchy's selector dictionary: every name maps to
      the values "0" and "1". */
  function ZeroOneSelectors(names: seq<string>): (table: seq<(string, seq<string>)>)
    ensures |table| == |names|
    ensures forall k :: 0 <= k < |names| ==> table[k] == (names[k], ["0", "1"])
  {
    if names == [] then [] else ZeroOneSelectors(names[..|names| - 1]) + [(names[|names| - 1], ["0", "1"])]
  }

  /** `_create_selectors`' dictionary from selector name to values, in
      insertion order: a disjoint hierarchy has one selector named after all
      its children whose values are the children, then the father when the
      hierarchy is partial; an overlapping one has a "0"/"1" selector per
      child. */
  function SelectorTable(father: C.Entity): seq<(string, seq<string>)>
    requires father.hierarchy != null
    reads father, father.hierarchy
  {
    var children := father.hierarchy.children;
    if father.hierarchy.disjointness == C.Disjoint then
      [(SelectorName(children, None), children + (if father.hierarchy.completeness == C.Partial then [father.name] else []))]
    else ZeroOneSelectors(OverlappingSelectorNames(children))
  }

  /** The selectors generated from a selector dictionary, all on the father. */
  function SelectorsAdded(fatherName: string, table: seq<(string, seq<string>)>): (es: seq<Effect>)
    ensures |es| == |table|
    ensures forall k :: 0 <= k < |table| ==> es[k] == SelectorAdded(fatherName, Selector(table[k].0, table[k].1))
  {
    if table == [] then []
    else
      var last := table[|table| - 1];
      SelectorsAdded(fatherName, table[..|table| - 1]) + [SelectorAdded(fatherName, Selector(last.0, last.1))]
  }

  function SelectorEffects(father: C.Entity): seq<Effect>
    requires father.hierarchy != null
    reads father, father.hierarchy
  {
    SelectorsAdded(father.name, SelectorTable(father))
  }

  /** A disjoint hierarchy gets exactly one selector, "TYPE_" followed by
      all the children's names, whose values are exactly the children then,
      when the hierarchy is partial and only then, the father; an overlapping hierarchy whose
      children do not repeat gets one "0"/"1" selector per child, named
      "TYPE_<child>", in hierarchy order. */
  lemma SelectorEffectsShape(father: C.Entity)
    requires father.hierarchy != null
    ensures var es := SelectorEffects(father);
      var children := father.hierarchy.children;
      father.hierarchy.disjointness == C.Disjoint ==>
        |es| == 1 && es[0].SelectorAdded? && es[0].entityName == father.name &&
        es[0].selector.name == SelectorPrefix + Concat(children) &&
        es[0].selector.values == children + (if father.hierarchy.completeness == C.Partial then [father.name] else []) &&
        es[0].selector.values[..|children|] == children &&
        (father.name in es[0].selector.values[|children|..] <==> father.hierarchy.completeness == C.Partial)
    ensures var es := SelectorEffects(father);
      var children := father.hierarchy.children;
      father.hierarchy.disjointness == C.Overlapping && U.Distinct(children) ==>
        |es| == |children| &&
        forall k :: 0 <= k < |children| ==>
          es[k] == SelectorAdded(father.name, Selector(SelectorName(children, Some(children[k])), ["0", "1"]))
  {
    var children := father.hierarchy.children;
    if father.hierarchy.disjointness == C.Overlapping && U.Distinct(children) {
      OverlappingSelectorNamesOfDistinct(children);
    }
  }

  /** `_collapse_upwards`: the selectors, then the constraints and triggers of
      every relationship touching a child (in dictionary order), then the
      total constraint when the hierarchy is total and overlapping. */
  function UpwardsEffects(entities: map<string, C.Entity>, relationships: map<string, C.Relationship>,
                          order: seq<string>, father: C.Entity): seq<Effect>
    requires father.hierarchy != null && AllKnown(entities, father.hierarchy.children)
    requires Joined(entities, relationships, order)
    reads entities.Values, relationships.Values, father, father.hierarchy
  {
    var children := father.hierarchy.children;
    SelectorEffects(father) +
    ConnectedEffects(entities, relationships, U.RetrieveConnectedRelationships(children, relationships, order), father) +
    (if father.hierarchy.completeness == C.Total && father.hierarchy.disjointness == C.Overlapping
     then [SqlConstraintAdded(father.name, TotalConstraint(children))] else [])
  }

  /** The checks on the columns `<prefix>_<id>`, one per identifier name. */
  function ColumnChecks(prefix: string, idNames: seq<string>, isNull: bool): (checks: seq<Check>)
    ensures |checks| == |idNames|
    ensures forall k :: 0 <= k < |idNames| ==> checks[k] == Check(prefix + "_" + idNames[k], isNull)
  {
    if idNames == [] then []
    else ColumnChecks(prefix, idNames[..|idNames| - 1], isNull) + [Check(prefix + "_" + idNames[|idNames| - 1], isNull)]
  }

  /** The checks on the relationship's attribute columns `<relationship>_<attribute>`:
      all of them null, or the mandatory ones not null. */
  function RelationshipAttributeChecks(relationshipName: string, attributes: seq<C.Attribute>, isNull: bool): seq<Check>
  {
    if attributes == [] then []
    else
      var a := attributes[|attributes| - 1];
      RelationshipAttributeChecks(relationshipName, attributes[..|attributes| - 1], isNull) +
      (if isNull then [Check(relationshipName + "_" + a.name, true)]
       else if a.cardinality.min == C.MinOne then [Check(relationshipName + "_" + a.name, false)]
       else [])
  }

  /** The null checks that the alternative of `child` puts on every other
      child, in the order of `iterated`. */
  function OtherChildrenChecks(iterated: seq<string>, child: string, idNames: seq<string>, relationshipName: string,
                               attributes: seq<C.Attribute>): seq<Check>
  {
    if iterated == [] then []
    else
      var other := iterated[|iterated| - 1];
      OtherChildrenChecks(iterated[..|iterated| - 1], child, idNames, relationshipName, attributes) +
      (if other != child then ColumnChecks(other, idNames, true) + RelationshipAttributeChecks(relationshipName, attributes, true)
       else [])
  }

  /** One alternative of `_create_sql_constraint_downwards`: the child's
      copies of the father's identifiers and the mandatory relationship
      attributes are set, and every other child's copies and every
      relationship attribute are null. */
  function DownwardsAlternative(children: seq<string>, child: string, idNames: seq<string>, relationshipName: string,
                                attributes: seq<C.Attribute>): seq<Check>
  {
    ColumnChecks(child, idNames, false) + RelationshipAttributeChecks(relationshipName, attributes, false) +
    OtherChildrenChecks(children, child, idNames, relationshipName, attributes)
  }

  function DownwardsAlternatives(children: seq<string>, iterated: seq<string>, idNames: seq<string>,
                                 relationshipName: string, attributes: seq<C.Attribute>): (alternatives: seq<seq<Check>>)
    ensures |alternatives| == |iterated|
    ensures forall k :: 0 <= k < |iterated| ==>
      alternatives[k] == DownwardsAlternative(children, iterated[k], idNames, relationshipName, attributes)
  {
    if iterated == [] then []
    else
      DownwardsAlternatives(children, iterated[..|iterated| - 1], idNames, relationshipName, attributes) +
      [DownwardsAlternative(children, iterated[|iterated| - 1], idNames, relationshipName, attributes)]
  }

  /** `_create_sql_constraint_downwards`'s constraint: one alternative per
      child of the father. */
  function DownwardsConstraintOf(relationshipName: string, r: C.Relationship, father: C.Entity): SqlConstraint
    requires father.hierarchy != null
    reads r, father, father.hierarchy
  {
    var children := father.hierarchy.children;
    DownwardsConstraint(relationshipName,
      DownwardsAlternatives(children, children, C.Names(father.identifiers), relationshipName, r.attributes))
  }

  /** In the alternative of a child, the child's copy of every father
      identifier is required and every other child's copy is null. When the
      child has a sibling, a mandatory relationship attribute is required to
      be both set and null, so that alternative can never hold. */
  lemma {:induction false} DownwardsAlternativeChecks(children: seq<string>, child: string, idNames: seq<string>,
                                                      relationshipName: string, attributes: seq<C.Attribute>)
    ensures var alternative := DownwardsAlternative(children, child, idNames, relationshipName, attributes);
      (forall id :: id in idNames ==> Check(child + "_" + id, false) in alternative) &&
      (forall other, id :: other in children && other != child && id in idNames ==>
        Check(other + "_" + id, true) in alternative)
    ensures var alternative := DownwardsAlternative(children, child, idNames, relationshipName, attributes);
      forall a :: a in attributes && a.cardinality.min == C.MinOne && (exists other :: other in children && other != child) ==>
        Check(relationshipName + "_" + a.name, false) in alternative &&
        Check(relationshipName + "_" + a.name, true) in alternative
  {
    var alternative := DownwardsAlternative(children, child, idNames, relationshipName, attributes);
    forall id | id in idNames
      ensures Check(child + "_" + id, false) in alternative
    {
      var k :| 0 <= k < |idNames| && idNames[k] == id;
      assert ColumnChecks(child, idNames, false)[k] == Check(child + "_" + id, false);
    }
    OtherChildrenChecksCover(children, child, idNames, relationshipName, attributes);
    RelationshipAttributeChecksCover(relationshipName, attributes);
  }

  /** Every relationship attribute has a null check, and every mandatory one
      a not-null check. */
  lemma {:induction false} RelationshipAttributeChecksCover(relationshipName: string, attributes: seq<C.Attribute>)
    ensures forall a :: a in attributes ==> Check(relationshipName + "_" + a.name, true) in RelationshipAttributeChecks(relationshipName, attributes, true)
    ensures forall a :: a in attributes && a.cardinality.min == C.MinOne ==>
      Check(relationshipName + "_" + a.name, false) in RelationshipAttributeChecks(relationshipName, attributes, false)
  {
    if attributes != [] {
      var init := attributes[..|attributes| - 1];
      RelationshipAttributeChecksCover(relationshipName, init);
      assert forall a :: a in attributes ==> a in init || a == attributes[|attributes| - 1];
    }
  }

  lemma {:induction false} OtherChildrenChecksCover(iterated: seq<string>, child: string, idNames: seq<string>,
                                                    relationshipName: string, attributes: seq<C.Attribute>)
    ensures var checks := OtherChildrenChecks(iterated, child, idNames, relationshipName, attributes);
      forall other, id :: other in iterated && other != child && id in idNames ==> Check(other + "_" + id, true) in checks
    ensures var checks := OtherChildrenChecks(iterated, child, idNames, relationshipName, attributes);
      forall a :: (exists other :: other in iterated && other != child) && a in attributes ==>
        Check(relationshipName + "_" + a.name, true) in checks
  {
    if iterated != [] {
      var init := iterated[..|iterated| - 1];
      var last := iterated[|iterated| - 1];
      OtherChildrenChecksCover(init, child, idNames, relationshipName, attributes);
      RelationshipAttributeChecksCover(relationshipName, attributes);
      var checks := OtherChildrenChecks(iterated, child, idNames, relationshipName, attributes);
      forall other, id | other in iterated && other != child && id in idNames
        ensures Check(other + "_" + id, true) in checks
      {
        if other == last {
          var k :| 0 <= k < |idNames| && idNames[k] == id;
          assert ColumnChecks(other, idNames, true)[k] == Check(other + "_" + id, true);
        } else {
          assert other in init;
        }
      }
      forall a | (exists other :: other in iterated && other != child) && a in attributes
        ensures Check(relationshipName + "_" + a.name, true) in checks
      {
        if last == child {
          var other :| other in iterated && other != child;
          assert other in init;
        }
      }
    }
  }

  lemma OtherChildrenChecksStep(children: seq<string>, child: string, idNames: seq<string>, relationshipName: string,
                                attributes: seq<C.Attribute>, k: nat)
    requires k < |children|
    ensures OtherChildrenChecks(children[..k + 1], child, idNames, relationshipName, attributes) ==
            OtherChildrenChecks(children[..k], child, idNames, relationshipName, attributes) +
            (if children[k] != child
             then ColumnChecks(children[k], idNames, true) + RelationshipAttributeChecks(relationshipName, attributes, true)
             else [])
  {
    assert children[..k + 1][..k] == children[..k];
  }

  lemma DownwardsAlternativesStep(children: seq<string>, idNames: seq<string>, relationshipName: string,
                                  attributes: seq<C.Attribute>, i: nat)
    requires i < |children|
    ensures DownwardsAlternatives(children, children[..i + 1], idNames, relationshipName, attributes) ==
            DownwardsAlternatives(children, children[..i], idNames, relationshipName, attributes) +
            [DownwardsAlternative(children, children[i], idNames, relationshipName, attributes)]
  {
    assert children[..i + 1][..i] == children[..i];
  }

  /** A downward table name `<relationship>_<child>_<other endpoint>`. */
  function RelationshipTableName(relationshipName: string, child: string, side: string): string
  {
    relationshipName + "_" + child + "_" + side
  }

  /** The column matches `N.<child>_<id> = <other table>.<other>_<id>`. */
  function DownwardsMatches(child: string, otherTable: string, other: string, idNames: seq<string>): (matches: seq<ColumnMatch>)
    ensures |matches| == |idNames|
    ensures forall k :: 0 <= k < |idNames| ==>
      matches[k] == ColumnMatch(child + "_" + idNames[k], otherTable, other + "_" + idNames[k])
  {
    if idNames == [] then []
    else
      var id := idNames[|idNames| - 1];
      DownwardsMatches(child, otherTable, other, idNames[..|idNames| - 1]) +
      [ColumnMatch(child + "_" + id, otherTable, other + "_" + id)]
  }

  /** The inner loop of `_create_sql_trigger_downwards_relationship`: one
      trigger from the child's relationship table to each other child's. */
  function RelationshipPairTriggers(relationshipName: string, side: string, idNames: seq<string>, child: string,
                                    iterated: seq<string>): seq<Trigger>
  {
    if iterated == [] then []
    else
      var other := iterated[|iterated| - 1];
      var otherTable := RelationshipTableName(relationshipName, other, side);
      RelationshipPairTriggers(relationshipName, side, idNames, child, iterated[..|iterated| - 1]) +
      (if other == child then []
       else [DownwardsTrigger(relationshipName, RelationshipTableName(relationshipName, child, side), otherTable,
                              DownwardsMatches(child, otherTable, other, idNames))])
  }

  function RelationshipTriggers(relationshipName: string, side: string, idNames: seq<string>, children: seq<string>,
                                iterated: seq<string>): seq<Trigger>
  {
    if iterated == [] then []
    else
      RelationshipTriggers(relationshipName, side, idNames, children, iterated[..|iterated| - 1]) +
      RelationshipPairTriggers(relationshipName, side, idNames, iterated[|iterated| - 1], children)
  }

  /** The column matches `N.<id> = <other>.<id>`, one per father identifier. */
  function ChildMatches(other: string, identifiers: seq<C.Attribute>): (matches: seq<ColumnMatch>)
    ensures |matches| == |identifiers|
    ensures forall k :: 0 <= k < |identifiers| ==>
      matches[k] == ColumnMatch(identifiers[k].name, other, identifiers[k].name)
  {
    if identifiers == [] then []
    else
      var id := identifiers[|identifiers| - 1];
      ChildMatches(other, identifiers[..|identifiers| - 1]) + [ColumnMatch(id.name, other, id.name)]
  }

  /** The inner loop of `_create_sql_trigger_downwards_child`: one trigger
      from the child's table to each other child's. */
  function ChildPairTriggers(relationshipName: string, identifiers: seq<C.Attribute>, child: string,
                             iterated: seq<string>): seq<Trigger>
  {
    if iterated == [] then []
    else
      var other := iterated[|iterated| - 1];
      ChildPairTriggers(relationshipName, identifiers, child, iterated[..|iterated| - 1]) +
      (if other == child then [] else [DownwardsTrigger(relationshipName, child, other, ChildMatches(other, identifiers))])
  }

  function ChildTriggers(relationshipName: string, identifiers: seq<C.Attribute>, children: seq<string>,
                         iterated: seq<string>): seq<Trigger>
  {
    if iterated == [] then []
    else
      ChildTriggers(relationshipName, identifiers, children, iterated[..|iterated| - 1]) +
      ChildPairTriggers(relationshipName, identifiers, iterated[|iterated| - 1], children)
  }

  lemma RelationshipPairTriggersStep(relationshipName: string, side: string, idNames: seq<string>, child: string,
                                     children: seq<string>, j: nat)
    requires j < |children|
    ensures var other := children[j];
      var otherTable := RelationshipTableName(relationshipName, other, side);
      RelationshipPairTriggers(relationshipName, side, idNames, child, children[..j + 1]) ==
      RelationshipPairTriggers(relationshipName, side, idNames, child, children[..j]) +
      (if other == child then []
       else [DownwardsTrigger(relationshipName, RelationshipTableName(relationshipName, child, side), otherTable,
                              DownwardsMatches(child, otherTable, other, idNames))])
  {
    assert children[..j + 1][..j] == children[..j];
  }

  lemma RelationshipTriggersStep(relationshipName: string, side: string, idNames: seq<string>, children: seq<string>, i: nat)
    requires i < |children|
    ensures RelationshipTriggers(relationshipName, side, idNames, children, children[..i + 1]) ==
            RelationshipTriggers(relationshipName, side, idNames, children, children[..i]) +
            RelationshipPairTriggers(relationshipName, side, idNames, children[i], children)
  {
    assert children[..i + 1][..i] == children[..i];
  }

  lemma ChildTriggersStep(relationshipName: string, identifiers: seq<C.Attribute>, children: seq<string>, i: nat)
    requires i < |children|
    ensures ChildTriggers(relationshipName, identifiers, children, children[..i + 1]) ==
            ChildTriggers(relationshipName, identifiers, children, children[..i]) +
            ChildPairTriggers(relationshipName, identifiers, children[i], children)
  {
    assert children[..i + 1][..i] == children[..i];
  }

  lemma ChildPairTriggersStep(relationshipName: string, identifiers: seq<C.Attribute>, child: string,
                              children: seq<string>, j: nat)
    requires j < |children|
    ensures var other := children[j];
      ChildPairTriggers(relationshipName, identifiers, child, children[..j + 1]) ==
      ChildPairTriggers(relationshipName, identifiers, child, children[..j]) +
      (if other == child then [] else [DownwardsTrigger(relationshipName, child, other, ChildMatches(other, identifiers))])
  {
    assert children[..j + 1][..j] == children[..j];
  }

  /** Over children without repetitions, the inner loops emit one trigger
      per other child. */
  lemma {:induction false} PairTriggerCounts(relationshipName: string, side: string, idNames: seq<string>,
                                             identifiers: seq<C.Attribute>, child: string, iterated: seq<string>)
    requires U.Distinct(iterated)
    ensures |RelationshipPairTriggers(relationshipName, side, idNames, child, iterated)| ==
            |iterated| - (if child in iterated then 1 else 0)
    ensures |ChildPairTriggers(relationshipName, identifiers, child, iterated)| ==
            |iterated| - (if child in iterated then 1 else 0)
  {
    if iterated != [] {
      var init := iterated[..|iterated| - 1];
      var last := iterated[|iterated| - 1];
      assert U.Distinct(init);
      PairTriggerCounts(relationshipName, side, idNames, identifiers, child, init);
      assert child in iterated <==> child in init || child == last;
      if child == last {
        assert child !in init;
      }
    }
  }

  /** Over children without repetitions, the downward triggers of a
      many-to-many relationship number one per ordered pair of distinct
      children. */
  lemma {:induction false} RelationshipTriggerCount(relationshipName: string, side: string, idNames: seq<string>,
                                                    children: seq<string>, iterated: seq<string>)
    requires U.Distinct(children) && forall c :: c in iterated ==> c in children
    ensures |RelationshipTriggers(relationshipName, side, idNames, children, iterated)| == |iterated| * (|children| - 1)
  {
    if iterated != [] {
      var init := iterated[..|iterated| - 1];
      assert forall c :: c in init ==> c in iterated;
      var last := iterated[|iterated| - 1];
      RelationshipTriggerCount(relationshipName, side, idNames, children, init);
      PairTriggerCounts(relationshipName, side, idNames, [], last, children);
      assert last in children;
      assert |RelationshipTriggers(relationshipName, side, idNames, children, iterated)| ==
             |RelationshipTriggers(relationshipName, side, idNames, children, init)| + (|children| - 1);
      MultiplySucc(|init|, |children| - 1);
    }
  }

  /** Over children without repetitions, the downward triggers between the
      children's tables number one per ordered pair of distinct children. */
  lemma {:induction false} ChildTriggerCount(relationshipName: string, identifiers: seq<C.Attribute>,
                                             children: seq<string>, iterated: seq<string>)
    requires U.Distinct(children) && forall c :: c in iterated ==> c in children
    ensures |ChildTriggers(relationshipName, identifiers, children, iterated)| == |iterated| * (|children| - 1)
  {
    if iterated != [] {
      var init := iterated[..|iterated| - 1];
      assert forall c :: c in init ==> c in iterated;
      var last := iterated[|iterated| - 1];
      ChildTriggerCount(relationshipName, identifiers, children, init);
      PairTriggerCounts(relationshipName, "", [], identifiers, last, children);
      assert last in children;
      assert |ChildTriggers(relationshipName, identifiers, children, iterated)| ==
             |ChildTriggers(relationshipName, identifiers, children, init)| + (|children| - 1);
      MultiplySucc(|init|, |children| - 1);
    }
  }
  /** A product step, stated apart so that the counting lemmas above keep
      their nonlinear arithmetic to this one fact. */
  lemma MultiplySucc(i: int, n: int)
    ensures (i + 1) * n == i * n + n
  {
  }

  /** One relationship of `_collapse_downwards`: a many-to-many relationship
      gets a trigger per ordered pair of children between their relationship
      tables; otherwise the other endpoint gets the downward constraint when
      the father is `entity_from` of a relationship whose from maximum is
      MANY, or `entity_to` of one whose from maximum is ONE, and the children
      get a trigger per ordered pair when it is not. */
  function DownwardsRelationshipEffects(relationships: map<string, C.Relationship>, key: string,
                                        father: C.Entity): seq<Effect>
    requires key in relationships && father.hierarchy != null
    reads relationships.Values, father, father.hierarchy
  {
    var r := relationships[key];
    var children := father.hierarchy.children;
    if BothMany(r) then
      var side := if r.entityFrom == father.name then r.entityTo else r.entityFrom;
      Fired(RelationshipTriggers(r.name, side, C.Names(father.identifiers), children, children))
    else if r.cardinalityFrom.max == C.MaxMany then
      if r.entityFrom == father.name then [SqlConstraintAdded(r.entityTo, DownwardsConstraintOf(key, r, father))]
      else Fired(ChildTriggers(r.name, father.identifiers, children, children))
    else if r.entityTo == father.name then [SqlConstraintAdded(r.entityFrom, DownwardsConstraintOf(key, r, father))]
    else Fired(ChildTriggers(r.name, father.identifiers, children, children))
  }

  function DownwardsEffects(relationships: map<string, C.Relationship>, keys: seq<string>, father: C.Entity): seq<Effect>
    requires forall k :: k in keys ==> k in relationships
    requires father.hierarchy != null
    reads relationships.Values, father, father.hierarchy
  {
    if keys == [] then []
    else
      assert keys[..|keys| - 1] <= keys;
      DownwardsEffects(relationships, keys[..|keys| - 1], father) +
      DownwardsRelationshipEffects(relationships, keys[|keys| - 1], father)
  }

  /** Whether some effect hands a SQL constraint to the generator. */
  predicate AddsSqlConstraint(es: seq<Effect>)
  {
    exists i :: 0 <= i < |es| && es[i].SqlConstraintAdded?
  }

  lemma AddsSqlConstraintConcat(a: seq<Effect>, b: seq<Effect>)
    ensures AddsSqlConstraint(a + b) <==> AddsSqlConstraint(a) || AddsSqlConstraint(b)
  {
    if AddsSqlConstraint(a + b) {
      var i :| 0 <= i < |a + b| && (a + b)[i].SqlConstraintAdded?;
      if i >= |a| {
        assert b[i - |a|] == (a + b)[i];
      }
    }
    if AddsSqlConstraint(a) {
      var i :| 0 <= i < |a| && a[i].SqlConstraintAdded?;
      assert (a + b)[i] == a[i];
    }
    if AddsSqlConstraint(b) {
      var i :| 0 <= i < |b| && b[i].SqlConstraintAdded?;
      assert (a + b)[|a| + i] == b[i];
    }
  }

  /** `_collapse_downwards` asks for a downward constraint exactly when the
      relationship is not many-to-many and the father is `entity_from` when
      the from maximum is MANY, `entity_to` otherwise; a one-to-one
      relationship into the father counts too (hierarchy_translation.py:66-67,
      71-72). */
  predicate NeedsDownwardsConstraint(r: C.Relationship, fatherName: string)
    reads r
  {
    !BothMany(r) && if r.cardinalityFrom.max == C.MaxMany then r.entityFrom == fatherName else r.entityTo == fatherName
  }

  /** One relationship's downward effects hand a constraint to the generator
      exactly when the relationship needs a downward constraint. */
  lemma DownwardsRelationshipAddsConstraint(relationships: map<string, C.Relationship>, key: string, father: C.Entity)
    requires key in relationships && father.hierarchy != null
    ensures AddsSqlConstraint(DownwardsRelationshipEffects(relationships, key, father)) <==>
      NeedsDownwardsConstraint(relationships[key], father.name)
  {
    var es := DownwardsRelationshipEffects(relationships, key, father);
    if NeedsDownwardsConstraint(relationships[key], father.name) {
      assert es[0].SqlConstraintAdded?;
    }
  }

  /** The generator `_create_sql_constraint_downwards` calls, as written
      (hierarchy_translation.py:436), and the one the SQL generator defines
      for it (sql_generator.py:167). */
  const DownwardsGeneratorAsWritten := "create_sql_downwards_constraint"
  const DownwardsGenerator := "create_sql_constraint_downwards"

  /** The generator named as written is not defined. */
  lemma UndefinedDownwardsGenerator()
    ensures GeneratorCall(DownwardsGeneratorAsWritten, 2) == Fail(AttributeError)
  {
  }

  /** `_collapse_downwards` over the relationship keys, calling `generator`
      with two arguments for every relationship that needs a downward
      constraint: it raises at the first call the generator refuses. */
  function CollapseDownwardsOutcome(generator: string, relationships: map<string, C.Relationship>, keys: seq<string>,
                                    fatherName: string): (r: Outcome<CallError>)
    requires forall k :: k in keys ==> k in relationships
    reads relationships.Values
    ensures r.Pass? <==>
      GeneratorCall(generator, 2).Pass? || forall k :: k in keys ==> !NeedsDownwardsConstraint(relationships[k], fatherName)
    ensures r.Fail? ==> r == GeneratorCall(generator, 2)
  {
    if keys == [] then Pass
    else
      var init := keys[..|keys| - 1];
      var last := keys[|keys| - 1];
      assert forall k :: k in keys <==> k in init || k == last;
      var before := CollapseDownwardsOutcome(generator, relationships, init, fatherName);
      if before.Fail? then before
      else if NeedsDownwardsConstraint(relationships[last], fatherName) then GeneratorCall(generator, 2)
      else Pass
  }

  /** As written, collapsing a hierarchy downwards raises AttributeError
      exactly when the model hands a downward constraint to the generator,
      and goes through otherwise. */
  lemma {:induction false} CollapseDownwardsFailsAsWritten(relationships: map<string, C.Relationship>, keys: seq<string>,
                                                          father: C.Entity)
    requires forall k :: k in keys ==> k in relationships
    requires father.hierarchy != null
    ensures CollapseDownwardsOutcome(DownwardsGeneratorAsWritten, relationships, keys, father.name) ==
      if AddsSqlConstraint(DownwardsEffects(relationships, keys, father)) then Fail(AttributeError) else Pass
    decreases |keys|
  {
    if keys != [] {
      var init := keys[..|keys| - 1];
      var last := keys[|keys| - 1];
      assert forall k :: k in init ==> k in keys;
      CollapseDownwardsFailsAsWritten(relationships, init, father);
      DownwardsRelationshipAddsConstraint(relationships, last, father);
      AddsSqlConstraintConcat(DownwardsEffects(relationships, init, father),
                              DownwardsRelationshipEffects(relationships, last, father));
      assert DownwardsEffects(relationships, keys, father) ==
             DownwardsEffects(relationships, init, father) + DownwardsRelationshipEffects(relationships, last, father);
      UndefinedDownwardsGenerator();
    }
  }

  /** With the generator the SQL generator defines, collapsing downwards
      never raises. */
  lemma CollapseDownwardsPasses(relationships: map<string, C.Relationship>, keys: seq<string>, fatherName: string)
    requires forall k :: k in keys ==> k in relationships
    ensures CollapseDownwardsOutcome(DownwardsGenerator, relationships, keys, fatherName) == Pass
  {
  }

  lemma DownwardsEffectsStep(relationships: map<string, C.Relationship>, keys: seq<string>, father: C.Entity, i: nat)
    requires i < |keys| && (forall k :: k in keys ==> k in relationships) && father.hierarchy != null
    ensures DownwardsEffects(relationships, keys[..i + 1], father) ==
            DownwardsEffects(relationships, keys[..i], father) + DownwardsRelationshipEffects(relationships, keys[i], father)
  {
    assert keys[..i + 1][..i] == keys[..i];
  }

  /** Generating checks leaves the diagram alone, so the downward effects
      computed before are still the ones computed after. */
  twostate lemma DownwardsEffectsFramed(new relationships: map<string, C.Relationship>, new keys: seq<string>, father: C.Entity)
    requires old(allocated(relationships))
    requires unchanged(relationships.Values) && unchanged(father) && old(father.hierarchy) != null
    requires unchanged(father.hierarchy)
    requires forall k :: k in keys ==> k in relationships
    ensures old(DownwardsEffects(relationships, keys, father)) == DownwardsEffects(relationships, keys, father)
  {
  }

  /** Generating checks and gathering constraints leave the diagram alone, so
      the upward effects computed before are still the ones computed after. */
  twostate lemma UpwardsEffectsFramed(new entities: map<string, C.Entity>, new relationships: map<string, C.Relationship>,
                                      new order: seq<string>, father: C.Entity)
    requires old(allocated(entities)) && old(allocated(relationships))
    requires unchanged(entities.Values) && unchanged(relationships.Values) && unchanged(father)
    requires old(father.hierarchy) != null && unchanged(father.hierarchy)
    requires AllKnown(entities, father.hierarchy.children) && Joined(entities, relationships, order)
    ensures old(SelectorEffects(father)) == SelectorEffects(father)
    ensures old(ConnectedEffects(entities, relationships,
                                 U.RetrieveConnectedRelationships(father.hierarchy.children, relationships, order), father)) ==
            ConnectedEffects(entities, relationships,
                             U.RetrieveConnectedRelationships(father.hierarchy.children, relationships, order), father)
    ensures old(UpwardsEffects(entities, relationships, order, father)) == UpwardsEffects(entities, relationships, order, father)
  {
  }

  /** `_translate_hierarchy`. */
  function HierarchyEffects(entities: map<string, C.Entity>, relationships: map<string, C.Relationship>,
                            order: seq<string>, father: C.Entity, choice: HierarchyChoice): seq<Effect>
    requires father.hierarchy != null && AllKnown(entities, father.hierarchy.children)
    requires Joined(entities, relationships, order)
    reads entities.Values, relationships.Values, father, father.hierarchy
  {
    if choice == CollapseUpwards then UpwardsEffects(entities, relationships, order, father)
    else DownwardsEffects(relationships, U.RetrieveConnectedRelationships([father.name], relationships, order), father)
  }

  /** The hierarchies of the entities that have one. */
  function Hierarchies(entities: map<string, C.Entity>): set<C.Hierarchy>
    reads entities.Values
  {
    set e | e in entities.Values && e.hierarchy != null :: e.hierarchy
  }

  /** Every child of every hierarchy is an entity of the diagram. */
  ghost predicate ChildrenKnown(entities: map<string, C.Entity>)
    reads entities.Values, Hierarchies(entities)
  {
    forall e :: e in entities.Values && e.hierarchy != null ==> AllKnown(entities, e.hierarchy.children)
  }

  /** The choice made for a father, collapse upwards when none was made
      (`_translate_hierarchy`'s default). */
  function ChoiceOf(choices: map<string, HierarchyChoice>, f: string): HierarchyChoice
  {
    if f in choices then choices[f] else CollapseUpwards
  }

  /** The loop of `translate_hierarchies` over the fathers: the effects of
      each father's hierarchy, translated as chosen, in order. */
  function HierarchiesEffects(entities: map<string, C.Entity>, relationships: map<string, C.Relationship>,
                              order: seq<string>, fathers: seq<string>,
                              choices: map<string, HierarchyChoice>): (steps: seq<seq<Effect>>)
    requires ChildrenKnown(entities) && Joined(entities, relationships, order)
    requires forall f :: f in fathers ==> f in entities && entities[f].hierarchy != null
    reads entities.Values, Hierarchies(entities), relationships.Values
    ensures |steps| == |fathers|
  {
    if fathers == [] then []
    else
      var f := fathers[|fathers| - 1];
      var father := entities[f];
      assert fathers[..|fathers| - 1] <= fathers;
      assert father in entities.Values;
      HierarchiesEffects(entities, relationships, order, fathers[..|fathers| - 1], choices) +
      [HierarchyEffects(entities, relationships, order, father, ChoiceOf(choices, f))]
  }

  /** The effects of several steps, one after the other. */
  function Flatten(steps: seq<seq<Effect>>): seq<Effect>
  {
    if steps == [] then [] else Flatten(steps[..|steps| - 1]) + steps[|steps| - 1]
  }

  lemma FlattenStep(steps: seq<seq<Effect>>, i: nat)
    requires i < |steps|
    ensures Flatten(steps[..i + 1]) == Flatten(steps[..i]) + steps[i]
  {
    assert steps[..i + 1][..i] == steps[..i];
  }

  /** One more father adds one more step at the end. */
  lemma HierarchiesEffectsSnoc(entities: map<string, C.Entity>, relationships: map<string, C.Relationship>,
                               order: seq<string>, fathers: seq<string>, choices: map<string, HierarchyChoice>)
    requires ChildrenKnown(entities) && Joined(entities, relationships, order)
    requires forall f :: f in fathers ==> f in entities && entities[f].hierarchy != null
    requires fathers != []
    ensures entities[fathers[|fathers| - 1]] in entities.Values
    ensures forall f :: f in fathers[..|fathers| - 1] ==> f in entities && entities[f].hierarchy != null
    ensures HierarchiesEffects(entities, relationships, order, fathers, choices) ==
            HierarchiesEffects(entities, relationships, order, fathers[..|fathers| - 1], choices) +
            [HierarchyEffects(entities, relationships, order, entities[fathers[|fathers| - 1]],
                              ChoiceOf(choices, fathers[|fathers| - 1]))]
  {
    assert fathers[..|fathers| - 1] <= fathers;
  }

  /** The `k`-th entry is the effect of the `k`-th father's hierarchy. */
  lemma {:induction false} HierarchiesEffectsAt(entities: map<string, C.Entity>,
                                                relationships: map<string, C.Relationship>, order: seq<string>,
                                                fathers: seq<string>, choices: map<string, HierarchyChoice>, k: nat)
    requires ChildrenKnown(entities) && Joined(entities, relationships, order)
    requires forall f :: f in fathers ==> f in entities && entities[f].hierarchy != null
    requires k < |fathers|
    ensures entities[fathers[k]] in entities.Values
    ensures var steps := HierarchiesEffects(entities, relationships, order, fathers, choices);
      |steps| == |fathers| &&
      steps[k] == HierarchyEffects(entities, relationships, order, entities[fathers[k]], ChoiceOf(choices, fathers[k]))
    decreases |fathers|
  {
    var init := fathers[..|fathers| - 1];
    var f := fathers[|fathers| - 1];
    HierarchiesEffectsSnoc(entities, relationships, order, fathers, choices);
    var front := HierarchiesEffects(entities, relationships, order, init, choices);
    var step := HierarchyEffects(entities, relationships, order, entities[f], ChoiceOf(choices, f));
    if k < |init| {
      assert init[k] == fathers[k];
      HierarchiesEffectsAt(entities, relationships, order, init, choices, k);
      assert front[k] == HierarchyEffects(entities, relationships, order, entities[fathers[k]], ChoiceOf(choices, fathers[k]));
      assert (front + [step])[k] == front[k];
    } else {
      assert k == |fathers| - 1;
      assert fathers[k] == f;
      assert (front + [step])[k] == step;
    }
  }

  /** One entry per father, each the effect of that father's hierarchy. */
  lemma HierarchiesEffectsSpec(entities: map<string, C.Entity>, relationships: map<string, C.Relationship>,
                               order: seq<string>, fathers: seq<string>, choices: map<string, HierarchyChoice>)
    requires ChildrenKnown(entities) && Joined(entities, relationships, order)
    requires forall f :: f in fathers ==> f in entities && entities[f].hierarchy != null
    ensures var steps := HierarchiesEffects(entities, relationships, order, fathers, choices);
      |steps| == |fathers| &&
      forall k {:trigger fathers[k]} :: 0 <= k < |fathers| ==>
        steps[k] == HierarchyEffects(entities, relationships, order, entities[fathers[k]], ChoiceOf(choices, fathers[k]))
  {
    if fathers != [] {
      HierarchiesEffectsAt(entities, relationships, order, fathers, choices, 0);
    }
    forall k | 0 <= k < |fathers|
      ensures HierarchiesEffects(entities, relationships, order, fathers, choices)[k] ==
              HierarchyEffects(entities, relationships, order, entities[fathers[k]], ChoiceOf(choices, fathers[k]))
    {
      HierarchiesEffectsAt(entities, relationships, order, fathers, choices, k);
    }
  }

  /** Translating a hierarchy leaves the diagram alone: a father keeps its
      hierarchy and the hierarchy its children. */
  twostate lemma FatherKept(new entities: map<string, C.Entity>, f: string)
    requires old(allocated(entities)) && unchanged(entities.Values)
    requires f in entities && old(entities[f].hierarchy) != null && unchanged(old(entities[f].hierarchy))
    requires old(ChildrenKnown(entities))
    ensures entities[f] in entities.Values && entities[f].hierarchy != null
    ensures AllKnown(entities, entities[f].hierarchy.children)
  {
  }

  /** Translating a hierarchy leaves the diagram alone, so the effects of a
      father's hierarchy computed before are still the ones computed after. */
  twostate lemma HierarchyEffectsFramed(new entities: map<string, C.Entity>, new relationships: map<string, C.Relationship>,
                                        new order: seq<string>, new father: C.Entity, choice: HierarchyChoice)
    requires old(allocated(entities)) && old(allocated(relationships)) && old(allocated(father))
    requires unchanged(entities.Values) && unchanged(relationships.Values) && unchanged(father)
    requires old(father.hierarchy) != null && unchanged(old(father.hierarchy))
    requires old(AllKnown(entities, father.hierarchy.children)) && Joined(entities, relationships, order)
    ensures old(HierarchyEffects(entities, relationships, order, father, choice)) ==
            HierarchyEffects(entities, relationships, order, father, choice)
  {
  }

  /** The final loop of `translate_hierarchies`: every kept constraint, in
      insertion order, handed to the SQL generator under its entity. */
  function Emitted(constraints: map<string, ConstraintValue>, order: seq<string>): seq<Effect>
  {
    if order == [] then []
    else
      var init := order[..|order| - 1];
      var last := order[|order| - 1];
      Emitted(constraints, init) +
      (if last in constraints
       then [SqlConstraintAdded(constraints[last].entityName, HierarchyConstraint(constraints[last]))]
       else [])
  }

  /** When every name is kept, one SQL constraint per name, in order, each
      under its constraint's entity. */
  lemma {:induction false} EmittedInOrder(constraints: map<string, ConstraintValue>, order: seq<string>)
    requires forall n :: n in order ==> n in constraints
    ensures var es := Emitted(constraints, order);
      |es| == |order| &&
      forall k :: 0 <= k < |order| ==>
        es[k] == SqlConstraintAdded(constraints[order[k]].entityName, HierarchyConstraint(constraints[order[k]]))
  {
    if order != [] {
      var init := order[..|order| - 1];
      assert forall k :: 0 <= k < |init| ==> init[k] == order[k];
      EmittedInOrder(constraints, init);
    }
  }

  lemma EmittedStep(constraints: map<string, ConstraintValue>, order: seq<string>, k: nat)
    requires k < |order| && order[k] in constraints
    ensures Emitted(constraints, order[..k + 1]) ==
            Emitted(constraints, order[..k]) +
            [SqlConstraintAdded(constraints[order[k]].entityName, HierarchyConstraint(constraints[order[k]]))]
  {
    assert order[..k + 1][..k] == order[..k];
  }

  /** One more selector handed to the SQL generator. */
  lemma SelectOne(start: Output, fatherName: string, table: seq<(string, seq<string>)>, j: nat, before: Output)
    requires j < |table|
    requires before == Apply(start, SelectorsAdded(fatherName, table[..j]))
    ensures Apply(start, SelectorsAdded(fatherName, table[..j + 1])) ==
            before.(selectors := before.selectors + [(fatherName, Selector(table[j].0, table[j].1))])
  {
    assert table[..j + 1][..j] == table[..j];
    ApplySnoc(start, SelectorsAdded(fatherName, table[..j]), SelectorAdded(fatherName, Selector(table[j].0, table[j].1)));
  }

  /** One more kept constraint handed to the SQL generator. */
  lemma EmitOne(start: Output, constraints: map<string, ConstraintValue>, order: seq<string>, k: nat, before: Output)
    requires k < |order| && order[k] in constraints
    requires before == Apply(start, Emitted(constraints, order[..k]))
    ensures Apply(start, Emitted(constraints, order[..k + 1])) ==
            before.(sqlConstraints := before.sqlConstraints +
                      [(constraints[order[k]].entityName, HierarchyConstraint(constraints[order[k]]))])
  {
    var added := SqlConstraintAdded(constraints[order[k]].entityName, HierarchyConstraint(constraints[order[k]]));
    EmittedStep(constraints, order, k);
    ApplySnoc(start, Emitted(constraints, order[..k]), added);
  }

  /** `HierachyTranslator`: the diagram's entities and relationships (with
      their dictionary orders), the constraints gathered so far by name, and
      the accumulator of generated checks. Every method is specified by the
      effects it has on `Snapshot()`. */
  class HierarchyTranslator {
    const entities: map<string, C.Entity>
    const entityOrder: seq<string>
    const relationships: map<string, C.Relationship>
    const relationshipOrder: seq<string>
    var constraints: map<string, ConstraintValue>
    var constraintOrder: seq<string>
    const hierarchyChecks: HierarchyChecks

    constructor (entities: map<string, C.Entity>, entityOrder: seq<string>,
                 relationships: map<string, C.Relationship>, relationshipOrder: seq<string>)
      requires U.ListsKeys(entityOrder, entities) && U.ListsKeys(relationshipOrder, relationships)
      ensures this.entities == entities && this.entityOrder == entityOrder
      ensures this.relationships == relationships && this.relationshipOrder == relationshipOrder
      ensures constraints == map[] && constraintOrder == []
      ensures fresh(hierarchyChecks)
      ensures hierarchyChecks.selectors == [] && hierarchyChecks.constraints == [] && hierarchyChecks.triggers == []
    {
      this.entities := entities;
      this.entityOrder := entityOrder;
      this.relationships := relationships;
      this.relationshipOrder := relationshipOrder;
      constraints := map[];
      constraintOrder := [];
      hierarchyChecks := new HierarchyChecks();
    }

    /** Everything the translator has produced so far. */
    function Snapshot(): Output
      reads this, hierarchyChecks
    {
      Output(hierarchyChecks.selectors, hierarchyChecks.constraints, hierarchyChecks.triggers,
             constraints, constraintOrder)
    }

    method TranslateHierarchies(hierarchyChoices: map<string, HierarchyChoice>)
      requires ChildrenKnown(entities) && Joined(entities, relationships, relationshipOrder)
      requires ConstraintsKept(constraints, constraintOrder)
      requires U.ListsKeys(entityOrder, entities) && U.ListsKeys(relationshipOrder, relationships)
      modifies this, hierarchyChecks
      ensures U.Distinct(U.GetAllFatherEntities(entities, entityOrder))
      ensures forall n :: n in U.GetAllFatherEntities(entities, entityOrder) <==> n in entities && entities[n].hierarchy != null
      ensures var mid := Apply(old(Snapshot()), Flatten(old(HierarchiesEffects(entities, relationships, relationshipOrder,
                                 U.GetAllFatherEntities(entities, entityOrder), hierarchyChoices))));
        Snapshot() == Apply(mid, Emitted(mid.constraints, mid.constraintOrder))
    {
      var fatherEntities := U.GetAllFatherEntities(entities, entityOrder);
      ghost var steps := HierarchiesEffects(entities, relationships, relationshipOrder, fatherEntities, hierarchyChoices);
      HierarchiesEffectsSpec(entities, relationships, relationshipOrder, fatherEntities, hierarchyChoices);
      TranslateFathers(fatherEntities, hierarchyChoices, steps);
      ApplyKeepsConstraints(old(Snapshot()), Flatten(steps));
      EmitConstraints();
      U.FathersListedOnce(entities, entityOrder);
    }

    /** The first loop of `translate_hierarchies`: each father's hierarchy
        translated as chosen, collapsed upwards when no choice was made;
        `steps` are the effects of each, computed beforehand. */
    method TranslateFathers(fatherEntities: seq<string>, hierarchyChoices: map<string, HierarchyChoice>,
                            ghost steps: seq<seq<Effect>>)
      requires ChildrenKnown(entities) && Joined(entities, relationships, relationshipOrder)
      requires forall f :: f in fatherEntities ==> f in entities && entities[f].hierarchy != null
      requires |steps| == |fatherEntities|
      requires forall k {:trigger fatherEntities[k]} :: 0 <= k < |fatherEntities| ==>
        steps[k] == HierarchyEffects(entities, relationships, relationshipOrder, entities[fatherEntities[k]],
                                     ChoiceOf(hierarchyChoices, fatherEntities[k]))
      modifies this, hierarchyChecks
      ensures Snapshot() == Apply(old(Snapshot()), Flatten(steps))
    {
      var i := 0;
      while i < |fatherEntities|
        invariant 0 <= i <= |fatherEntities|
        invariant Snapshot() == Apply(old(Snapshot()), Flatten(steps[..i]))
      {
        var fatherEntityName := fatherEntities[i];
        FatherKept(entities, fatherEntityName);
        var choice := ChoiceOf(hierarchyChoices, fatherEntityName);
        TranslateHierarchy(fatherEntityName, choice);
        HierarchyEffectsFramed(entities, relationships, relationshipOrder, entities[fatherEntityName], choice);
        FlattenStep(steps, i);
        ApplyConcat(old(Snapshot()), Flatten(steps[..i]), steps[i]);
        i := i + 1;
      }
      assert steps[..i] == steps;
    }

    /** The final loop of `translate_hierarchies`: every kept constraint, in
        insertion order, handed to the SQL generator under its entity. */
    method EmitConstraints()
      requires forall n :: n in constraintOrder ==> n in constraints
      modifies hierarchyChecks
      ensures Snapshot() == Apply(old(Snapshot()), Emitted(constraints, constraintOrder))
    {
      var kept := constraints;
      var order := constraintOrder;
      ghost var start := Snapshot();
      var k := 0;
      while k < |order|
        invariant 0 <= k <= |order|
        invariant Snapshot() == Apply(start, Emitted(kept, order[..k]))
      {
        var constraintName := order[k];
        var constraint := kept[constraintName];
        var sqlConstraint := HierarchyConstraint(constraint);
        ghost var before := Snapshot();
        hierarchyChecks.AddConstraint(constraint.entityName, sqlConstraint);
        EmitOne(start, kept, order, k, before);
        k := k + 1;
      }
      assert order[..k] == order;
    }

    method TranslateHierarchy(fatherEntityName: string, choice: HierarchyChoice)
      requires fatherEntityName in entities && entities[fatherEntityName].hierarchy != null
      requires AllKnown(entities, entities[fatherEntityName].hierarchy.children)
      requires Joined(entities, relationships, relationshipOrder)
      modifies this, hierarchyChecks
      ensures Snapshot() == Apply(old(Snapshot()), HierarchyEffects(entities, relationships, relationshipOrder,
                                                                    entities[fatherEntityName], choice))
    {
      var fatherEntity := entities[fatherEntityName];
      if choice == HierarchyChoice.CollapseUpwards {
        CollapseUpwards(fatherEntity);
      } else {
        CollapseDownwards(fatherEntity);
      }
    }

    method CollapseUpwards(fatherEntity: C.Entity)
      requires fatherEntity.hierarchy != null && AllKnown(entities, fatherEntity.hierarchy.children)
      requires Joined(entities, relationships, relationshipOrder)
      modifies this, hierarchyChecks
      ensures Snapshot() == Apply(old(Snapshot()), UpwardsEffects(entities, relationships, relationshipOrder, fatherEntity))
    {
      var children := fatherEntity.hierarchy.children;
      ghost var selectors := SelectorEffects(fatherEntity);
      ghost var connected := ConnectedEffects(entities, relationships,
                                              U.RetrieveConnectedRelationships(children, relationships, relationshipOrder),
                                              fatherEntity);
      CreateSelectors(fatherEntity);
      UpwardsEffectsFramed(entities, relationships, relationshipOrder, fatherEntity);
      CreateConstraintAndTrigger(fatherEntity);
      UpwardsEffectsFramed(entities, relationships, relationshipOrder, fatherEntity);
      ApplyConcat(old(Snapshot()), selectors, connected);
      if fatherEntity.hierarchy.completeness == C.Total && fatherEntity.hierarchy.disjointness == C.Overlapping {
        CreateSqlTotalConstraint(fatherEntity);
        UpwardsEffectsFramed(entities, relationships, relationshipOrder, fatherEntity);
        ApplyConcat(old(Snapshot()), selectors + connected, [SqlConstraintAdded(fatherEntity.name, TotalConstraint(children))]);
      } else {
        assert selectors + connected + [] == selectors + connected;
      }
    }

    method CollapseDownwards(fatherEntity: C.Entity)
      requires fatherEntity.hierarchy != null
      modifies hierarchyChecks
      ensures Snapshot() == Apply(old(Snapshot()), DownwardsEffects(relationships,
                U.RetrieveConnectedRelationships([fatherEntity.name], relationships, relationshipOrder), fatherEntity))
    {
      var fatherRelationships := U.RetrieveConnectedRelationships([fatherEntity.name], relationships, relationshipOrder);
      ghost var effects: seq<Effect> := [];
      var i := 0;
      while i < |fatherRelationships|
        invariant 0 <= i <= |fatherRelationships|
        invariant effects == old(DownwardsEffects(relationships, fatherRelationships[..i], fatherEntity))
        invariant Snapshot() == Apply(old(Snapshot()), effects)
      {
        var relationshipName := fatherRelationships[i];
        CollapseDownwardsRelationship(relationshipName, fatherEntity);
        ghost var step := DownwardsRelationshipEffects(relationships, relationshipName, fatherEntity);
        DownwardsEffectsFramed(relationships, fatherRelationships[..i], fatherEntity);
        DownwardsEffectsFramed(relationships, fatherRelationships[..i + 1], fatherEntity);
        DownwardsEffectsStep(relationships, fatherRelationships, fatherEntity, i);
        ApplyConcat(old(Snapshot()), effects, step);
        effects := effects + step;
        i := i + 1;
      }
      assert fatherRelationships[..i] == fatherRelationships;
      DownwardsEffectsFramed(relationships, fatherRelationships, fatherEntity);
    }

    /** The body of the loop of `_collapse_downwards`: one relationship of the father. */
    method CollapseDownwardsRelationship(relationshipName: string, fatherEntity: C.Entity)
      requires relationshipName in relationships && fatherEntity.hierarchy != null
      modifies hierarchyChecks
      ensures Snapshot() == Apply(old(Snapshot()), DownwardsRelationshipEffects(relationships, relationshipName, fatherEntity))
    {
      var relationship := relationships[relationshipName];
      var children := fatherEntity.hierarchy.children;
      if relationship.cardinalityFrom.max == C.MaxMany && relationship.cardinalityTo.max == C.MaxMany {
        CreateSqlTriggerDownwardsRelationship(relationship, fatherEntity, children);
      } else if relationship.cardinalityFrom.max == C.MaxMany {
        if relationship.entityFrom == fatherEntity.name {
          CreateSqlConstraintDownwards(relationship.entityTo, relationshipName, fatherEntity);
        } else {
          CreateSqlTriggerDownwardsChild(relationship, fatherEntity, children);
        }
      } else {
        if relationship.entityTo == fatherEntity.name {
          CreateSqlConstraintDownwards(relationship.entityFrom, relationshipName, fatherEntity);
        } else {
          CreateSqlTriggerDownwardsChild(relationship, fatherEntity, children);
        }
      }
    }

    /** The first loop of `_create_selectors`: the dictionary from selector
        name to values, in insertion order. */
    static method SelectorDictionary(fatherEntity: C.Entity) returns (selectors: seq<(string, seq<string>)>)
      requires fatherEntity.hierarchy != null
      ensures selectors == SelectorTable(fatherEntity)
    {
      var hierarchy := fatherEntity.hierarchy;
      var children := hierarchy.children;
      if hierarchy.disjointness == C.Disjoint {
        var selectorName := SelectorPrefix;
        var selectorValues: seq<string> := [];
        var i := 0;
        while i < |children|
          invariant 0 <= i <= |children|
          invariant selectorName == SelectorPrefix + Concat(children[..i]) && selectorValues == children[..i]
        {
          assert children[..i + 1][..i] == children[..i];
          selectorName := selectorName + children[i];
          selectorValues := selectorValues + [children[i]];
          i := i + 1;
        }
        assert children[..i] == children;
        if hierarchy.completeness == C.Partial {
          selectorValues := selectorValues + [fatherEntity.name];
        } else {
          assert selectorValues == children + [];
        }
        selectors := [(selectorName, selectorValues)];
        assert selectors == SelectorTable(fatherEntity);
      } else {
        // The dictionary's keys: every value is ["0", "1"].
        var selectorNames: seq<string> := [];
        var i := 0;
        while i < |children|
          invariant 0 <= i <= |children|
          invariant selectorNames == OverlappingSelectorNames(children[..i])
        {
          assert children[..i + 1][..i] == children[..i];
          var selectorName := SelectorPrefix + children[i];
          if selectorName !in selectorNames {
            selectorNames := selectorNames + [selectorName];
          }
          i := i + 1;
        }
        assert children[..i] == children;
        selectors := ZeroOneSelectors(selectorNames);
        assert selectors == SelectorTable(fatherEntity);
      }
    }

    /** `_create_selectors`: builds the selector dictionary, then hands
        every entry to the SQL generator as a selector of the father. */
    method CreateSelectors(fatherEntity: C.Entity)
      requires fatherEntity.hierarchy != null
      modifies hierarchyChecks
      ensures Snapshot() == Apply(old(Snapshot()), SelectorEffects(fatherEntity))
    {
      var selectors := SelectorDictionary(fatherEntity);
      var name := fatherEntity.name;
      ghost var start := Snapshot();
      var j := 0;
      while j < |selectors|
        invariant 0 <= j <= |selectors|
        invariant Snapshot() == Apply(start, SelectorsAdded(name, selectors[..j]))
      {
        var (selectorName, selectorValues) := selectors[j];
        ghost var before := Snapshot();
        hierarchyChecks.AddSelector(name, Selector(selectorName, selectorValues));
        SelectOne(start, name, selectors, j, before);
        j := j + 1;
      }
      assert selectors[..j] == selectors;
    }

    method CreateConstraintAndTrigger(fatherEntity: C.Entity)
      requires fatherEntity.hierarchy != null && AllKnown(entities, fatherEntity.hierarchy.children)
      requires Joined(entities, relationships, relationshipOrder)
      modifies this, hierarchyChecks
      ensures Snapshot() == Apply(old(Snapshot()), ConnectedEffects(entities, relationships,
                U.RetrieveConnectedRelationships(fatherEntity.hierarchy.children, relationships, relationshipOrder),
                fatherEntity))
    {
      var childrenNames := U.RetrieveChildrenNames(fatherEntity);
      var hierarchyRelationships := U.RetrieveConnectedRelationships(childrenNames, relationships, relationshipOrder);
      ghost var effects: seq<Effect> := [];
      var i := 0;
      while i < |hierarchyRelationships|
        invariant 0 <= i <= |hierarchyRelationships|
        invariant effects == old(ConnectedEffects(entities, relationships, hierarchyRelationships[..i], fatherEntity))
        invariant Snapshot() == Apply(old(Snapshot()), effects)
      {
        var relationshipName := hierarchyRelationships[i];
        var relationship := relationships[relationshipName];
        CheckRelationship(relationship, childrenNames, fatherEntity);
        ghost var step := CheckRelationshipEffects(entities, relationship, childrenNames, fatherEntity);
        ConnectedEffectsFramed(entities, relationships, hierarchyRelationships[..i], fatherEntity);
        ConnectedEffectsFramed(entities, relationships, hierarchyRelationships[..i + 1], fatherEntity);
        ConnectedEffectsStep(entities, relationships, hierarchyRelationships, fatherEntity, i);
        ApplyConcat(old(Snapshot()), effects, step);
        effects := effects + step;
        i := i + 1;
      }
      assert hierarchyRelationships[..i] == hierarchyRelationships;
      ConnectedEffectsFramed(entities, relationships, hierarchyRelationships, fatherEntity);
    }

    method CheckRelationship(relationship: C.Relationship, childrenNames: seq<string>, father: C.Entity)
      requires father.hierarchy != null && AllKnown(entities, father.hierarchy.children)
      requires relationship.entityFrom in entities && relationship.entityTo in entities
      modifies this, hierarchyChecks
      ensures Snapshot() == Apply(old(Snapshot()), CheckRelationshipEffects(entities, relationship, childrenNames, father))
    {
      if relationship.entityFrom in childrenNames && relationship.entityTo in childrenNames {
        CheckRelationshipCardinalityBothChild(relationship, father);
      } else if relationship.entityFrom in childrenNames {
        CheckRelationshipCardinalityFromChild(relationship, father);
      } else {
        CheckRelationshipCardinalityToChild(relationship, father);
      }
    }

    method CheckRelationshipCardinalityBothChild(relationship: C.Relationship, father: C.Entity)
      requires father.hierarchy != null && AllKnown(entities, father.hierarchy.children)
      requires relationship.entityFrom in entities && relationship.entityTo in entities
      modifies this, hierarchyChecks
      ensures Snapshot() == Apply(old(Snapshot()), BothChildEffects(entities, relationship, father))
    {
      var entityFrom := entities[relationship.entityFrom];
      var entityTo := entities[relationship.entityTo];
      if entityFrom.name == entityTo.name {
        CheckRecursiveRelationshipChildCardinality(relationship, father, entityFrom);
      } else if relationship.cardinalityFrom.max == C.MaxMany && relationship.cardinalityTo.max == C.MaxMany {
        var first := Fire(relationship, relationship.name, father, entityFrom.name, Some(entityTo.name), "");
        CreateSqlTrigger(relationship, relationship.name, father, entityFrom, entityTo, "");
        CreateSqlTrigger(relationship, relationship.name, father, entityTo, entityFrom, "");
        ApplyConcat(old(Snapshot()), [first],
                    [Fire(relationship, relationship.name, father, entityTo.name, Some(entityFrom.name), "")]);
      } else if relationship.cardinalityFrom.max == C.MaxMany {
        var first := Fire(relationship, father.name, father, entityFrom.name, Some(entityTo.name), "");
        CreateSqlTrigger(relationship, father.name, father, entityFrom, entityTo, "");
        CreateSqlConstraint(relationship, father, entityTo);
        ApplyConcat(old(Snapshot()), [first], ConstraintEffects(entities, relationship, father, entityTo));
      } else {
        var first := Fire(relationship, father.name, father, entityTo.name, Some(entityFrom.name), "");
        CreateSqlTrigger(relationship, father.name, father, entityTo, entityFrom, "");
        CreateSqlConstraint(relationship, father, entityFrom);
        ApplyConcat(old(Snapshot()), [first], ConstraintEffects(entities, relationship, father, entityFrom));
      }
    }

    method CheckRecursiveRelationshipChildCardinality(relationship: C.Relationship, father: C.Entity, entityFrom: C.Entity)
      requires father.hierarchy != null && AllKnown(entities, father.hierarchy.children)
      modifies this, hierarchyChecks
      ensures Snapshot() == Apply(old(Snapshot()), RecursiveEffects(entities, relationship, father, entityFrom))
    {
      if relationship.cardinalityFrom.max == C.MaxMany && relationship.cardinalityTo.max == C.MaxMany {
        var first := Fire(relationship, relationship.name, father, entityFrom.name, Some(entityFrom.name), "_A");
        var second := Fire(relationship, relationship.name, father, entityFrom.name, Some(entityFrom.name), "_B");
        assert RecursiveEffects(entities, relationship, father, entityFrom) == [first] + [second];
        CreateSqlTrigger(relationship, relationship.name, father, entityFrom, entityFrom, "_A");
        CreateSqlTrigger(relationship, relationship.name, father, entityFrom, entityFrom, "_B");
        ApplyConcat(old(Snapshot()), [first], [second]);
      } else {
        var first := Fire(relationship, father.name, father, entityFrom.name, Some(entityFrom.name), "");
        CreateSqlTrigger(relationship, father.name, father, entityFrom, entityFrom, "");
        CreateSqlConstraint(relationship, father, entityFrom);
        ApplyConcat(old(Snapshot()), [first], ConstraintEffects(entities, relationship, father, entityFrom));
      }
    }

    method CheckRelationshipCardinalityFromChild(relationship: C.Relationship, father: C.Entity)
      requires father.hierarchy != null && AllKnown(entities, father.hierarchy.children)
      requires relationship.entityFrom in entities && relationship.entityTo in entities
      modifies this, hierarchyChecks
      ensures Snapshot() == Apply(old(Snapshot()), FromChildEffects(entities, relationship, father))
    {
      var entityFrom := entities[relationship.entityFrom];
      var entityTo := entities[relationship.entityTo];
      if relationship.cardinalityFrom.max == C.MaxMany && relationship.cardinalityTo.max == C.MaxMany {
        CreateSqlTrigger(relationship, relationship.name, father, entityFrom, null, "");
      } else if relationship.cardinalityFrom.max == C.MaxMany {
        CreateSqlTrigger(relationship, entityTo.name, father, entityFrom, null, "");
      } else {
        CreateSqlConstraint(relationship, father, entityFrom);
      }
    }

    method CheckRelationshipCardinalityToChild(relationship: C.Relationship, father: C.Entity)
      requires father.hierarchy != null && AllKnown(entities, father.hierarchy.children)
      requires relationship.entityFrom in entities && relationship.entityTo in entities
      modifies this, hierarchyChecks
      ensures Snapshot() == Apply(old(Snapshot()), ToChildEffects(entities, relationship, father))
    {
      var entityFrom := entities[relationship.entityFrom];
      var entityTo := entities[relationship.entityTo];
      if relationship.cardinalityFrom.max == C.MaxMany && relationship.cardinalityTo.max == C.MaxMany {
        CreateSqlTrigger(relationship, relationship.name, father, entityTo, null, "");
      } else if relationship.cardinalityFrom.max == C.MaxMany {
        CreateSqlConstraint(relationship, father, entityTo);
      } else {
        CreateSqlTrigger(relationship, entityFrom.name, father, entityTo, null, "");
      }
    }

    /** `_create_sql_trigger`; without another child the identifier
        modifier is not passed on. */
    method CreateSqlTrigger(relationship: C.Relationship, tableName: string, father: C.Entity, connectedChild: C.Entity,
                            otherChild: C.Entity?, identifierModifier: string)
      requires father.hierarchy != null
      modifies hierarchyChecks
      ensures Snapshot() == Apply(old(Snapshot()),
        [Fire(relationship, tableName, father, connectedChild.name, if otherChild == null then None else Some(otherChild.name),
              if otherChild == null then "" else identifierModifier)])
    {
      var hierarchy := father.hierarchy;
      var selectorName;
      if hierarchy.disjointness == C.Overlapping {
        selectorName := SelectorName(U.RetrieveChildrenNames(father), Some(connectedChild.name));
      } else {
        selectorName := SelectorName(U.RetrieveChildrenNames(father), None);
      }
      var sqlTrigger;
      if otherChild != null {
        if identifierModifier != "" {
          sqlTrigger := BeforeInsertTrigger(relationship.name, tableName, father.name, connectedChild.name, selectorName,
                                            Some(otherChild.name), identifierModifier);
        } else {
          sqlTrigger := BeforeInsertTrigger(relationship.name, tableName, father.name, connectedChild.name, selectorName,
                                            Some(otherChild.name), "");
        }
      } else {
        sqlTrigger := BeforeInsertTrigger(relationship.name, tableName, father.name, connectedChild.name, selectorName,
                                          None, "");
      }
      assert sqlTrigger == BeforeInsert(relationship, tableName, father, connectedChild.name,
        if otherChild == null then None else Some(otherChild.name), if otherChild == null then "" else identifierModifier);
      hierarchyChecks.AddTrigger(sqlTrigger);
      ApplyTrigger(old(Snapshot()), sqlTrigger);
    }

    method CreateSqlConstraint(relationship: C.Relationship, father: C.Entity, connectedChild: C.Entity)
      requires father.hierarchy != null && AllKnown(entities, father.hierarchy.children)
      modifies this
      ensures Snapshot() == Apply(old(Snapshot()), ConstraintEffects(entities, relationship, father, connectedChild))
    {
      if father.hierarchy.disjointness == C.Overlapping {
        CreateSqlConstraintOverlapping(relationship, father, connectedChild);
      } else {
        CreateSqlConstraintDisjoint(relationship, father, connectedChild);
      }
    }

    /** The disjoint branch of `_create_sql_constraint`: one constraint named
        after all the children, on the shared selector. */
    method CreateSqlConstraintDisjoint(relationship: C.Relationship, father: C.Entity, connectedChild: C.Entity)
      requires father.hierarchy != null && AllKnown(entities, father.hierarchy.children)
      requires father.hierarchy.disjointness != C.Overlapping
      modifies this
      ensures Snapshot() == Apply(old(Snapshot()), Merged(SqlConstraintValues(entities, relationship, father, connectedChild)))
    {
      var constraintName := Concat(U.RetrieveChildrenNames(father));
      var selectorName := SelectorName(father.hierarchy.children, None);
      var conditions := DisjointConditions(entities, relationship, father, connectedChild);
      var constraint := ConstraintValue(father.name, constraintName, selectorName, conditions);
      assert SqlConstraintValues(entities, relationship, father, connectedChild) == [constraint];
      AddConstraint(constraint);
      SqlConstraintValuesFramed(entities, relationship, father, connectedChild);
      assert Merged([constraint]) == [] + [ConstraintMerged(constraint)];
    }

    /** The overlapping branch of `_create_sql_constraint`: one constraint per
        child, on the child's selector. */
    method CreateSqlConstraintOverlapping(relationship: C.Relationship, father: C.Entity, connectedChild: C.Entity)
      requires father.hierarchy != null && AllKnown(entities, father.hierarchy.children)
      modifies this
      ensures Snapshot() == Apply(old(Snapshot()), Merged(OverlappingConstraintValues(entities, relationship, father,
                                                                                       connectedChild, father.hierarchy.children)))
    {
      var children := father.hierarchy.children;
      ghost var cs := OverlappingConstraintValues(entities, relationship, father, connectedChild, children);
      var i := 0;
      while i < |children|
        invariant 0 <= i <= |children|
        invariant Snapshot() == Apply(old(Snapshot()), Merged(cs[..i]))
      {
        OverlappingConstraintValuesFramed(entities, relationship, father, connectedChild, children);
        var childName := children[i];
        var childEntity := entities[childName];
        var constraintName := childName;
        var selectorName := SelectorName(children, Some(childEntity.name));
        var conditions;
        if childName == connectedChild.name {
          conditions := OverlappingConditions(relationship, father, connectedChild);
        } else {
          conditions := OverlappingChildConditions(childEntity);
        }
        var constraint := ConstraintValue(father.name, constraintName, selectorName, conditions);
        OverlappingConstraintValuesAt(entities, relationship, father, connectedChild, children, i);
        assert constraint == cs[i];
        AddConstraint(constraint);
        MergedStep(cs, i);
        ApplySnoc(old(Snapshot()), Merged(cs[..i]), ConstraintMerged(constraint));
        i := i + 1;
      }
      assert cs[..i] == cs;
      OverlappingConstraintValuesFramed(entities, relationship, father, connectedChild, children);
    }

    /** `_add_constraint`: a known name has the new conditions merged into
        its constraint; a new name is inserted after all the others. */
    method AddConstraint(constraint: ConstraintValue)
      modifies this
      ensures Snapshot() == Apply(old(Snapshot()), [ConstraintMerged(constraint)])
    {
      var constraintName := constraint.constraintName;
      if constraintName in constraints {
        var known := constraints[constraintName];
        constraints := constraints[constraintName := known.(conditions := MergeConditions(known.conditions, constraint.conditions))];
      } else {
        constraints := constraints[constraintName := constraint];
        constraintOrder := constraintOrder + [constraintName];
      }
      ApplySingle(old(Snapshot()), ConstraintMerged(constraint));
    }

    method CreateSqlTotalConstraint(father: C.Entity)
      requires father.hierarchy != null
      modifies hierarchyChecks
      ensures Snapshot() == Apply(old(Snapshot()), [SqlConstraintAdded(father.name, TotalConstraint(father.hierarchy.children))])
    {
      var childrenNames := U.RetrieveChildrenNames(father);
      var sqlConstraint := TotalConstraint(childrenNames);
      hierarchyChecks.AddConstraint(father.name, sqlConstraint);
      ApplySingle(old(Snapshot()), SqlConstraintAdded(father.name, sqlConstraint));
    }

    /** `_create_sql_constraint_downwards`: one alternative of checks per
        child, handed to the SQL generator under `entityName`. */
    method CreateSqlConstraintDownwards(entityName: string, relationshipName: string, father: C.Entity)
      requires relationshipName in relationships && father.hierarchy != null
      modifies hierarchyChecks
      ensures Snapshot() == Apply(old(Snapshot()),
        [SqlConstraintAdded(entityName, DownwardsConstraintOf(relationshipName, relationships[relationshipName], father))])
    {
      var relationship := relationships[relationshipName];
      var children := father.hierarchy.children;
      var attributes := relationship.attributes;
      var fatherIds := C.Names(father.identifiers);
      var conditions: seq<seq<Check>> := [];
      var i := 0;
      while i < |children|
        invariant 0 <= i <= |children|
        invariant conditions == DownwardsAlternatives(children, children[..i], fatherIds, relationshipName, attributes)
        invariant unchanged(hierarchyChecks)
      {
        var childName := children[i];
        var checks := ColumnCheckList(childName, fatherIds, false);
        var mandatory := RelationshipAttributeCheckList(relationshipName, attributes, false);
        checks := checks + mandatory;
        var others := OtherChildrenCheckList(children, childName, fatherIds, relationshipName, attributes);
        checks := checks + others;
        DownwardsAlternativesStep(children, fatherIds, relationshipName, attributes, i);
        conditions := conditions + [checks];
        i := i + 1;
      }
      assert children[..i] == children;
      var sqlConstraint := DownwardsConstraint(relationshipName, conditions);
      assert sqlConstraint == DownwardsConstraintOf(relationshipName, relationship, father);
      hierarchyChecks.AddConstraint(entityName, sqlConstraint);
      ApplySingle(old(Snapshot()), SqlConstraintAdded(entityName, sqlConstraint));
    }

    /** The loop over the other children in `_create_sql_constraint_downwards`:
        each one's copies of the father's identifiers and every relationship
        attribute must be null. */
    static method OtherChildrenCheckList(children: seq<string>, childName: string, fatherIds: seq<string>,
                                         relationshipName: string, attributes: seq<C.Attribute>) returns (checks: seq<Check>)
      ensures checks == OtherChildrenChecks(children, childName, fatherIds, relationshipName, attributes)
    {
      checks := [];
      var k := 0;
      while k < |children|
        invariant 0 <= k <= |children|
        invariant checks == OtherChildrenChecks(children[..k], childName, fatherIds, relationshipName, attributes)
      {
        var otherChildName := children[k];
        OtherChildrenChecksStep(children, childName, fatherIds, relationshipName, attributes, k);
        if childName != otherChildName {
          var idChecks := ColumnCheckList(otherChildName, fatherIds, true);
          var attributeChecks := RelationshipAttributeCheckList(relationshipName, attributes, true);
          checks := checks + (idChecks + attributeChecks);
        }
        k := k + 1;
      }
      assert children[..k] == children;
    }

    /** The loops over the father's identifier names in
        `_create_sql_constraint_downwards`: a check on each child's copy. */
    static method ColumnCheckList(prefix: string, idNames: seq<string>, isNull: bool) returns (checks: seq<Check>)
      ensures checks == ColumnChecks(prefix, idNames, isNull)
    {
      checks := [];
      var j := 0;
      while j < |idNames|
        invariant 0 <= j <= |idNames|
        invariant checks == ColumnChecks(prefix, idNames[..j], isNull)
      {
        assert idNames[..j + 1][..j] == idNames[..j];
        checks := checks + [Check(prefix + "_" + idNames[j], isNull)];
        j := j + 1;
      }
      assert idNames[..j] == idNames;
    }

    /** The loops over the relationship's attributes in
        `_create_sql_constraint_downwards`: a null check on each, or a
        not-null check on each mandatory one. */
    static method RelationshipAttributeCheckList(relationshipName: string, attributes: seq<C.Attribute>, isNull: bool)
      returns (checks: seq<Check>)
      ensures checks == RelationshipAttributeChecks(relationshipName, attributes, isNull)
    {
      checks := [];
      var j := 0;
      while j < |attributes|
        invariant 0 <= j <= |attributes|
        invariant checks == RelationshipAttributeChecks(relationshipName, attributes[..j], isNull)
      {
        assert attributes[..j + 1][..j] == attributes[..j];
        if isNull {
          checks := checks + [Check(relationshipName + "_" + attributes[j].name, true)];
        } else if attributes[j].cardinality.min == C.MinOne {
          checks := checks + [Check(relationshipName + "_" + attributes[j].name, false)];
        }
        j := j + 1;
      }
      assert attributes[..j] == attributes;
    }

    /** `_create_sql_trigger_downwards_relationship`: a trigger for every
        ordered pair of distinct children, between their copies of the
        relationship's table. */
    method CreateSqlTriggerDownwardsRelationship(relationship: C.Relationship, father: C.Entity, children: seq<string>)
      modifies hierarchyChecks
      ensures var side := if relationship.entityFrom == father.name then relationship.entityTo else relationship.entityFrom;
        Snapshot() == Apply(old(Snapshot()),
                            Fired(RelationshipTriggers(relationship.name, side, C.Names(father.identifiers), children, children)))
    {
      var relationshipName := relationship.name;
      ghost var side := if relationship.entityFrom == father.name then relationship.entityTo else relationship.entityFrom;
      var fatherIds := C.Names(father.identifiers);
      var i := 0;
      while i < |children|
        invariant 0 <= i <= |children|
        invariant hierarchyChecks.selectors == old(hierarchyChecks.selectors)
        invariant hierarchyChecks.constraints == old(hierarchyChecks.constraints)
        invariant hierarchyChecks.triggers ==
          old(hierarchyChecks.triggers) + RelationshipTriggers(relationshipName, side, fatherIds, children, children[..i])
      {
        var childName := children[i];
        CreateSqlTriggerDownwardsPairs(relationship, father, fatherIds, childName, children);
        RelationshipTriggersStep(relationshipName, side, fatherIds, children, i);
        AppendAssoc(old(hierarchyChecks.triggers),
                    RelationshipTriggers(relationshipName, side, fatherIds, children, children[..i]),
                    RelationshipPairTriggers(relationshipName, side, fatherIds, childName, children));
        i := i + 1;
      }
      assert children[..i] == children;
      ApplyFired(old(Snapshot()), RelationshipTriggers(relationshipName, side, fatherIds, children, children));
    }

    /** The inner loop of `_create_sql_trigger_downwards_relationship`: the
        triggers from one child's copy of the relationship's table to every
        other child's. */
    method CreateSqlTriggerDownwardsPairs(relationship: C.Relationship, father: C.Entity, fatherIds: seq<string>,
                                          childName: string, children: seq<string>)
      modifies hierarchyChecks
      ensures var side := if relationship.entityFrom == father.name then relationship.entityTo else relationship.entityFrom;
        hierarchyChecks.triggers ==
          old(hierarchyChecks.triggers) + RelationshipPairTriggers(relationship.name, side, fatherIds, childName, children)
      ensures hierarchyChecks.selectors == old(hierarchyChecks.selectors)
      ensures hierarchyChecks.constraints == old(hierarchyChecks.constraints)
    {
      var relationshipName := relationship.name;
      var entityFrom := relationship.entityFrom;
      var entityTo := relationship.entityTo;
      var fromSideFather := entityFrom == father.name;
      ghost var side := if fromSideFather then entityTo else entityFrom;
      var j := 0;
      while j < |children|
        invariant 0 <= j <= |children|
        invariant hierarchyChecks.selectors == old(hierarchyChecks.selectors)
        invariant hierarchyChecks.constraints == old(hierarchyChecks.constraints)
        invariant hierarchyChecks.triggers ==
          old(hierarchyChecks.triggers) + RelationshipPairTriggers(relationshipName, side, fatherIds, childName, children[..j])
      {
        var otherChildName := children[j];
        RelationshipPairTriggersStep(relationshipName, side, fatherIds, childName, children, j);
        if childName == otherChildName {
          j := j + 1;
          continue;
        }
        var otherRelationshipTable;
        if fromSideFather {
          otherRelationshipTable := relationshipName + "_" + otherChildName + "_" + entityTo;
        } else {
          otherRelationshipTable := relationshipName + "_" + otherChildName + "_" + entityFrom;
        }
        var checks := RelationshipTableMatches(childName, otherRelationshipTable, otherChildName, fatherIds);
        var relationshipTable;
        if fromSideFather {
          relationshipTable := relationshipName + "_" + childName + "_" + entityTo;
        } else {
          relationshipTable := relationshipName + "_" + childName + "_" + entityFrom;
        }
        CreateSqlTriggerDownwards(relationshipName, relationshipTable, otherRelationshipTable, checks);
        AppendAssoc(old(hierarchyChecks.triggers),
                    RelationshipPairTriggers(relationshipName, side, fatherIds, childName, children[..j]),
                    [DownwardsTrigger(relationshipName, relationshipTable, otherRelationshipTable, checks)]);
        j := j + 1;
      }
      assert children[..j] == children;
    }

    /** `_create_sql_trigger_downwards_child`: a trigger for every ordered
        pair of distinct children, between their own tables. */
    method CreateSqlTriggerDownwardsChild(relationship: C.Relationship, father: C.Entity, children: seq<string>)
      modifies hierarchyChecks
      ensures Snapshot() == Apply(old(Snapshot()),
                                  Fired(ChildTriggers(relationship.name, father.identifiers, children, children)))
    {
      var identifiers := father.identifiers;
      var i := 0;
      while i < |children|
        invariant 0 <= i <= |children|
        invariant hierarchyChecks.selectors == old(hierarchyChecks.selectors)
        invariant hierarchyChecks.constraints == old(hierarchyChecks.constraints)
        invariant hierarchyChecks.triggers ==
          old(hierarchyChecks.triggers) + ChildTriggers(relationship.name, identifiers, children, children[..i])
      {
        var childName := children[i];
        ghost var done := hierarchyChecks.triggers;
        var j := 0;
        while j < |children|
          invariant 0 <= j <= |children|
          invariant hierarchyChecks.selectors == old(hierarchyChecks.selectors)
          invariant hierarchyChecks.constraints == old(hierarchyChecks.constraints)
          invariant hierarchyChecks.triggers == done + ChildPairTriggers(relationship.name, identifiers, childName, children[..j])
        {
          assert children[..j + 1][..j] == children[..j];
          var otherChildName := children[j];
          if childName == otherChildName {
            j := j + 1;
            continue;
          }
          var checks := ChildTableMatches(otherChildName, identifiers);
          ChildPairTriggersStep(relationship.name, identifiers, childName, children, j);
          CreateSqlTriggerDownwards(relationship.name, childName, otherChildName, checks);
          AppendAssoc(done,
                      ChildPairTriggers(relationship.name, identifiers, childName, children[..j]),
                      [DownwardsTrigger(relationship.name, childName, otherChildName, checks)]);
          j := j + 1;
        }
        assert children[..j] == children;
        ChildTriggersStep(relationship.name, identifiers, children, i);
        AppendAssoc(old(hierarchyChecks.triggers),
                    ChildTriggers(relationship.name, identifiers, children, children[..i]),
                    ChildPairTriggers(relationship.name, identifiers, childName, children));
        i := i + 1;
      }
      assert children[..i] == children;
      ApplyFired(old(Snapshot()), ChildTriggers(relationship.name, identifiers, children, children));
    }

    /** The loop over the father's identifier names in
        `_create_sql_trigger_downwards_relationship`: one match between the
        two children's copies of each identifier. */
    static method RelationshipTableMatches(childName: string, otherRelationshipTable: string, otherChildName: string,
                                           fatherIds: seq<string>) returns (checks: seq<ColumnMatch>)
      ensures checks == DownwardsMatches(childName, otherRelationshipTable, otherChildName, fatherIds)
    {
      checks := [];
      var m := 0;
      while m < |fatherIds|
        invariant 0 <= m <= |fatherIds|
        invariant checks == DownwardsMatches(childName, otherRelationshipTable, otherChildName, fatherIds[..m])
      {
        assert fatherIds[..m + 1][..m] == fatherIds[..m];
        checks := checks + [ColumnMatch(childName + "_" + fatherIds[m], otherRelationshipTable,
                                        otherChildName + "_" + fatherIds[m])];
        m := m + 1;
      }
      assert fatherIds[..m] == fatherIds;
    }

    /** The loop over the father's identifiers in
        `_create_sql_trigger_downwards_child`: one match per identifier
        between the two children's tables. */
    static method ChildTableMatches(otherChildName: string, identifiers: seq<C.Attribute>) returns (checks: seq<ColumnMatch>)
      ensures checks == ChildMatches(otherChildName, identifiers)
    {
      checks := [];
      var m := 0;
      while m < |identifiers|
        invariant 0 <= m <= |identifiers|
        invariant checks == ChildMatches(otherChildName, identifiers[..m])
      {
        assert identifiers[..m + 1][..m] == identifiers[..m];
        checks := checks + [ColumnMatch(identifiers[m].name, otherChildName, identifiers[m].name)];
        m := m + 1;
      }
      assert identifiers[..m] == identifiers;
    }

    method CreateSqlTriggerDownwards(relationshipName: string, tableName: string, otherTableName: string,
                                     conditions: seq<ColumnMatch>)
      modifies hierarchyChecks
      ensures hierarchyChecks.triggers == old(hierarchyChecks.triggers) +
                                          [DownwardsTrigger(relationshipName, tableName, otherTableName, conditions)]
      ensures hierarchyChecks.selectors == old(hierarchyChecks.selectors)
      ensures hierarchyChecks.constraints == old(hierarchyChecks.constraints)
    {
      hierarchyChecks.AddTrigger(DownwardsTrigger(relationshipName, tableName, otherTableName, conditions));
    }
  }
}
