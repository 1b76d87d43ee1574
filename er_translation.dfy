/** The translator of er_translator/translation/er_translation.py: it
    normalises composite and multivalued attributes of the conceptual model
    in place, turns entities into tables and turns relationships into
    foreign keys, association tables or merged tables. The translator holds
    three maps keyed by name: entities, relationships and tables. */
module ErTranslation {
  import opened Wrappers
  import opened Choices
  import C = Conceptual
  import R = Relational
  import opened Text

  /** `_translate_attribute`: a column is optional exactly when the minimum
      cardinality of the attribute is zero; name and uniqueness carry over. */
  function TranslateAttribute(a: C.Attribute): (r: R.Attribute)
    ensures r.Attribute? && r.name == a.name && r.isUnique == a.isUnique
    ensures r.isOptional <==> a.cardinality.min == C.MinZero
  {
    R.Attribute(a.name, a.cardinality.min == C.MinZero, a.isUnique)
  }

  /** Every attribute translated, in order. */
  function TranslateAll(attributes: seq<C.Attribute>): (r: seq<R.Attribute>)
    ensures |r| == |attributes|
    ensures forall k :: 0 <= k < |attributes| ==> r[k] == TranslateAttribute(attributes[k])
  {
    if attributes == [] then []
    else TranslateAll(attributes[..|attributes| - 1]) + [TranslateAttribute(attributes[|attributes| - 1])]
  }

  /** A plain column named after `key` with `suffix` appended, keeping its
      optionality and uniqueness. */
  function Suffixed(key: R.Attribute, suffix: string): R.Attribute
  {
    R.Attribute(key.name + suffix, key.isOptional, key.isUnique)
  }

  /** The keys of a recursive relationship between different maxima: one
      `<key>B` column per primary key, in order. */
  function SuffixedKeys(keys: seq<R.Attribute>, suffix: string): (r: seq<R.Attribute>)
    ensures |r| == |keys|
    ensures forall k :: 0 <= k < |keys| ==> r[k] == Suffixed(keys[k], suffix)
  {
    if keys == [] then [] else SuffixedKeys(keys[..|keys| - 1], suffix) + [Suffixed(keys[|keys| - 1], suffix)]
  }

  /** The primary key of the table of a recursive relationship between equal
      maxima: `<key>A` then `<key>B` for every key, in key order. */
  function PairedKeys(keys: seq<R.Attribute>): (r: seq<R.Attribute>)
    ensures |r| == 2 * |keys|
    ensures forall k :: 0 <= k < |keys| ==> r[2 * k] == Suffixed(keys[k], "A") && r[2 * k + 1] == Suffixed(keys[k], "B")
  {
    if keys == [] then []
    else
      var init := PairedKeys(keys[..|keys| - 1]);
      var last := keys[|keys| - 1];
      assert forall k :: 0 <= k < |keys| - 1 ==> keys[..|keys| - 1][k] == keys[k];
      init + [Suffixed(last, "A"), Suffixed(last, "B")]
  }

  /** The identifiers of the entity made from a multivalued attribute: the
      attribute itself when it is unique, else a new unique mandatory
      `<name>_id` column. */
  function SatelliteIdentifiers(a: C.Attribute): seq<C.Attribute>
  {
    if a.isUnique then [a]
    else [C.Attribute(a.name + "_id", C.Cardinality(C.MinOne, C.MaxOne), true)]
  }

  /** The attributes of that entity: none when the attribute is its
      identifier, the attribute itself otherwise. */
  function SatelliteAttributes(a: C.Attribute): seq<C.Attribute>
  {
    if a.isUnique then [] else [a]
  }

  /** `e` is the entity that replaces multivalued attribute `a` of entity
      `ownerName`. */
  predicate IsSatellite(e: C.Entity, ownerName: string, a: C.Attribute)
    reads e
  {
    e.name == ownerName + a.name &&
    e.identifiers == SatelliteIdentifiers(a) && e.attributes == SatelliteAttributes(a) &&
    e.strongEntity == None && e.hierarchy == null
  }

  /** `r` is the relationship `<owner>_AND_<attribute>` that links the owner
      to that entity: the owner's side keeps the attribute's cardinality and
      the new entity's side is exactly one. */
  predicate IsLink(r: C.Relationship, ownerName: string, a: C.Attribute)
    reads r
  {
    r.name == ownerName + "_AND_" + a.name &&
    r.entityFrom == ownerName && r.entityTo == ownerName + a.name &&
    r.cardinalityFrom == a.cardinality && r.cardinalityTo == C.Cardinality(C.MinOne, C.MaxOne) &&
    r.attributes == []
  }

  /** The last attribute of `attributes` called `name`. */
  function LastNamed(attributes: seq<C.Attribute>, name: string): (a: C.Attribute)
    requires exists k :: 0 <= k < |attributes| && attributes[k].name == name
    ensures a in attributes && a.name == name
  {
    var last := attributes[|attributes| - 1];
    if last.name == name then last
    else
      var k :| 0 <= k < |attributes| && attributes[k].name == name;
      assert attributes[..|attributes| - 1][k] == attributes[k];
      LastNamed(attributes[..|attributes| - 1], name)
  }

  /** The attribute that each name `prefix + a.name` stands for once the
      attributes are taken in order, a later attribute replacing an earlier
      one of the same name. */
  function ByPrefixedName(prefix: string, attributes: seq<C.Attribute>): map<string, C.Attribute>
  {
    if attributes == [] then map[]
    else
      var last := attributes[|attributes| - 1];
      ByPrefixedName(prefix, attributes[..|attributes| - 1])[prefix + last.name := last]
  }

  /** The attribute list after `remove_attribute` for every name, in turn. */
  function RemoveEachNamed(attributes: seq<C.Attribute>, removed: seq<C.Attribute>): seq<C.Attribute>
  {
    if removed == [] then attributes
    else C.RemoveNamed(RemoveEachNamed(attributes, removed[..|removed| - 1]), removed[|removed| - 1].name)
  }

  /** The attributes a single-valued composite is replaced by. */
  function CompositeReplacement(composite: C.Attribute, choice: CompositeAttributeChoice): seq<C.Attribute>
  {
    match choice
    case KeepComposite => [C.Plain(composite)]
    case KeepSimpleAttributes => if composite.CompositeAttribute? then composite.simpleAttributes else []
  }

  lemma NamesApart(owner: string, x: string, y: string)
    requires x != y
    ensures owner + x != owner + y
  {
    if owner + x == owner + y {
      PrefixCancels(owner, x, y);
    }
  }

  /** The names mapped are exactly the prefixed attribute names, and each
      stands for the last attribute of its name. */
  lemma {:induction false} ByPrefixedNameSpec(prefix: string, attributes: seq<C.Attribute>)
    ensures forall n :: n in ByPrefixedName(prefix, attributes) <==>
      exists k :: 0 <= k < |attributes| && n == prefix + attributes[k].name
    ensures forall k :: 0 <= k < |attributes| ==>
      prefix + attributes[k].name in ByPrefixedName(prefix, attributes) &&
      ByPrefixedName(prefix, attributes)[prefix + attributes[k].name] == LastNamed(attributes, attributes[k].name)
  {
    if attributes != [] {
      var init := attributes[..|attributes| - 1];
      var last := attributes[|attributes| - 1];
      ByPrefixedNameSpec(prefix, init);
      var before := ByPrefixedName(prefix, init);
      assert ByPrefixedName(prefix, attributes) == before[prefix + last.name := last];
      forall n | n in ByPrefixedName(prefix, attributes)
        ensures exists k :: 0 <= k < |attributes| && n == prefix + attributes[k].name
      {
        if n != prefix + last.name {
          assert n in before;
          var k :| 0 <= k < |init| && n == prefix + init[k].name;
          assert attributes[k] == init[k];
        }
      }
      forall k | 0 <= k < |attributes|
        ensures ByPrefixedName(prefix, attributes)[prefix + attributes[k].name] == LastNamed(attributes, attributes[k].name)
      {
        if attributes[k].name != last.name {
          assert init[k] == attributes[k];
          NamesApart(prefix, attributes[k].name, last.name);
        }
      }
    }
  }

  /** One more attribute normalised: its name is removed and its prefixed
      name added to both maps. */
  lemma PrefixedStep(owner: string, attributes: seq<C.Attribute>, simples: seq<C.Attribute>, i: nat)
    requires i < |simples|
    ensures RemoveEachNamed(attributes, simples[..i + 1]) == C.RemoveNamed(RemoveEachNamed(attributes, simples[..i]), simples[i].name)
    ensures ByPrefixedName(owner, simples[..i + 1]) == ByPrefixedName(owner, simples[..i])[owner + simples[i].name := simples[i]]
    ensures ByPrefixedName(owner + "_AND_", simples[..i + 1]) ==
            ByPrefixedName(owner + "_AND_", simples[..i])[owner + "_AND_" + simples[i].name := simples[i]]
  {
    assert simples[..i + 1][..i] == simples[..i];
    assert owner + "_AND_" + simples[i].name == (owner + "_AND_") + simples[i].name;
  }

  /** Choices offered per entity and composite attribute. */
  type CompositeChoices = map<string, map<string, set<CompositeAttributeChoice>>>

  /** `get_composite_attributes_choices`, returning the caller's dictionary
      after the update: a composite attribute is offered both treatments,
      and every other entry is left as it was. */
  function GetCompositeAttributesChoices(entityName: string, attribute: C.Attribute, choices: CompositeChoices): (r: CompositeChoices)
    ensures !attribute.CompositeAttribute? ==> r == choices
    ensures attribute.CompositeAttribute? ==>
      r.Keys == choices.Keys + {entityName} &&
      attribute.name in r[entityName] && r[entityName][attribute.name] == BothCompositeChoices &&
      (forall e :: e in choices && e != entityName ==> r[e] == choices[e])
    ensures attribute.CompositeAttribute? && entityName in choices ==>
      r[entityName].Keys == choices[entityName].Keys + {attribute.name} &&
      forall a :: a in choices[entityName] && a != attribute.name ==> r[entityName][a] == choices[entityName][a]
    ensures attribute.CompositeAttribute? && entityName !in choices ==> r[entityName].Keys == {attribute.name}
  {
    if !attribute.CompositeAttribute? then choices
    else if entityName in choices then
      choices[entityName := choices[entityName][attribute.name := BothCompositeChoices]]
    else choices[entityName := map[attribute.name := BothCompositeChoices]]
  }

  predicate IsOneToOne(r: C.Relationship)
  {
    r.cardinalityFrom.max == C.MaxOne && r.cardinalityTo.max == C.MaxOne
  }

  predicate IsManyToMany(r: C.Relationship)
  {
    r.cardinalityFrom.max == C.MaxMany && r.cardinalityTo.max == C.MaxMany
  }

  /** `get_relationship_choices`, returning the caller's dictionary after the
      update. A one-to-one relationship may be merged into one table unless
      both sides are optional; every relationship except a many-to-many may
      get an association table or a foreign key; a many-to-many relationship
      gets no entry. */
  function GetRelationshipChoices(relationship: C.Relationship, choices: map<string, set<RelationshipChoice>>): (r: map<string, set<RelationshipChoice>>)
    ensures IsManyToMany(relationship) ==> r == choices
    ensures !IsManyToMany(relationship) ==>
      r.Keys == choices.Keys + {relationship.name} &&
      (forall n :: n in choices && n != relationship.name ==> r[n] == choices[n]) &&
      RelationshipTable in r[relationship.name] && AddForeignKey in r[relationship.name] &&
      r[relationship.name] <= {RelationshipTable, AddForeignKey, MergeIntoSingleTable}
    ensures !IsManyToMany(relationship) ==>
      (MergeIntoSingleTable in r[relationship.name] <==>
        IsOneToOne(relationship) &&
        !(relationship.cardinalityFrom.min == C.MinZero && relationship.cardinalityTo.min == C.MinZero))
  {
    if IsOneToOne(relationship) then
      if relationship.cardinalityFrom.min == C.MinZero && relationship.cardinalityTo.min == C.MinZero then
        choices[relationship.name := {RelationshipTable, AddForeignKey}]
      else
        choices[relationship.name := {RelationshipTable, AddForeignKey, MergeIntoSingleTable}]
    else if relationship.cardinalityFrom.max != relationship.cardinalityTo.max then
      choices[relationship.name := {RelationshipTable, AddForeignKey}]
    else choices
  }

  /** `after` is `before` with one more key, `key`, every other key keeping
      its value. */
  predicate Inserted<V(==)>(before: map<string, V>, after: map<string, V>, key: string)
  {
    key in after && after.Keys == before.Keys + {key} &&
    forall k :: k in before && k != key ==> after[k] == before[k]
  }

  /** The table has the given name and columns. */
  predicate IsTable(t: R.Table, name: string, primaryKeys: seq<R.Attribute>,
                    foreignKeys: seq<R.Attribute>, attributes: seq<R.Attribute>)
    reads t
  {
    t.name == name && t.primaryKeys == primaryKeys && t.foreignKeys == foreignKeys && t.attributes == attributes
  }

  class ERTranslator {
    var entities: map<string, C.Entity>
    var relationships: map<string, C.Relationship>
    var tables: map<string, R.Table>

    /** A translator starts with no tables. */
    constructor (entities: map<string, C.Entity>, relationships: map<string, C.Relationship>)
      ensures this.entities == entities && this.relationships == relationships && tables == map[]
    {
      this.entities := entities;
      this.relationships := relationships;
      tables := map[];
    }

    /** `normalize_attribute`: a multivalued composite becomes one new entity
        (KEEP_COMPOSITE) or one per sub-attribute (KEEP_SIMPLE_ATTRIBUTES),
        a single-valued composite is flattened in place, a multivalued simple
        attribute becomes a new entity, and anything else is left alone. */
    method NormalizeAttribute(entityName: string, attribute: C.Attribute, choice: CompositeAttributeChoice)
      requires entityName in entities
      modifies this, entities[entityName]
      ensures tables == old(tables)
      ensures var owner := old(entities[entityName]);
        owner.identifiers == old(owner.identifiers) && owner.strongEntity == old(owner.strongEntity) &&
        owner.hierarchy == old(owner.hierarchy)
      ensures var owner := old(entities[entityName]);
        attribute.CompositeAttribute? && attribute.cardinality.max == C.MaxMany && choice == KeepComposite ==>
          var a := C.Plain(attribute);
          owner.attributes == C.RemoveNamed(old(owner.attributes), a.name) &&
          Inserted(old(entities), entities, owner.name + a.name) &&
          fresh(entities[owner.name + a.name]) && IsSatellite(entities[owner.name + a.name], owner.name, a) &&
          Inserted(old(relationships), relationships, owner.name + "_AND_" + a.name) &&
          fresh(relationships[owner.name + "_AND_" + a.name]) &&
          IsLink(relationships[owner.name + "_AND_" + a.name], owner.name, a)
      ensures var owner := old(entities[entityName]);
        attribute.CompositeAttribute? && attribute.cardinality.max == C.MaxMany && choice == KeepSimpleAttributes ==>
          var simples := attribute.simpleAttributes;
          var satellites := ByPrefixedName(owner.name, simples);
          var links := ByPrefixedName(owner.name + "_AND_", simples);
          owner.attributes == RemoveEachNamed(old(owner.attributes), simples) &&
          entities.Keys == old(entities).Keys + satellites.Keys &&
          (forall n :: n in old(entities) && n !in satellites ==> entities[n] == old(entities[n])) &&
          (forall n :: n in satellites ==> fresh(entities[n]) && IsSatellite(entities[n], owner.name, satellites[n])) &&
          relationships.Keys == old(relationships).Keys + links.Keys &&
          (forall n :: n in old(relationships) && n !in links ==> relationships[n] == old(relationships[n])) &&
          (forall n :: n in links ==> fresh(relationships[n]) && IsLink(relationships[n], owner.name, links[n]))
      ensures var owner := old(entities[entityName]);
        attribute.CompositeAttribute? && attribute.cardinality.max == C.MaxOne ==>
          owner.attributes == C.RemoveNamed(old(owner.attributes), attribute.name) + CompositeReplacement(attribute, choice) &&
          entities == old(entities) && relationships == old(relationships)
      ensures var owner := old(entities[entityName]);
        attribute.Attribute? && attribute.cardinality.max == C.MaxMany ==>
          owner.attributes == C.RemoveNamed(old(owner.attributes), attribute.name) &&
          Inserted(old(entities), entities, owner.name + attribute.name) &&
          fresh(entities[owner.name + attribute.name]) && IsSatellite(entities[owner.name + attribute.name], owner.name, attribute) &&
          Inserted(old(relationships), relationships, owner.name + "_AND_" + attribute.name) &&
          fresh(relationships[owner.name + "_AND_" + attribute.name]) &&
          IsLink(relationships[owner.name + "_AND_" + attribute.name], owner.name, attribute)
      ensures attribute.Attribute? && attribute.cardinality.max == C.MaxOne ==>
        entities == old(entities) && relationships == old(relationships) &&
        old(entities[entityName]).attributes == old(entities[entityName].attributes)
    {
      var entity := entities[entityName];
      if attribute.CompositeAttribute? && attribute.cardinality.max == C.MaxMany {
        if choice == KeepComposite {
          NormalizeMultiValueAttribute(entity, C.Attribute(attribute.name, attribute.cardinality, attribute.isUnique));
        } else {
          NormalizeEachMultiValueAttribute(entity, attribute.simpleAttributes);
        }
      } else if attribute.CompositeAttribute? {
        NormalizeCompositeAttribute(entity, attribute, choice);
      } else if attribute.cardinality.max == C.MaxMany {
        NormalizeMultiValueAttribute(entity, attribute);
      }
    }

    /** The loop of `normalize_attribute` over the sub-attributes of a
        multivalued composite: each one in turn becomes a new entity, a later
        sub-attribute replacing the entity and relationship of an earlier one
        with the same name. */
    method NormalizeEachMultiValueAttribute(entity: C.Entity, simples: seq<C.Attribute>)
      modifies this, entity
      ensures tables == old(tables)
      ensures entity.identifiers == old(entity.identifiers) && entity.strongEntity == old(entity.strongEntity)
      ensures entity.hierarchy == old(entity.hierarchy)
      ensures entity.attributes == RemoveEachNamed(old(entity.attributes), simples)
      ensures var satellites := ByPrefixedName(entity.name, simples);
        entities.Keys == old(entities).Keys + satellites.Keys &&
        (forall n :: n in old(entities) && n !in satellites ==> entities[n] == old(entities[n])) &&
        (forall n :: n in satellites ==> fresh(entities[n]) && IsSatellite(entities[n], entity.name, satellites[n]))
      ensures var links := ByPrefixedName(entity.name + "_AND_", simples);
        relationships.Keys == old(relationships).Keys + links.Keys &&
        (forall n :: n in old(relationships) && n !in links ==> relationships[n] == old(relationships[n])) &&
        (forall n :: n in links ==> fresh(relationships[n]) && IsLink(relationships[n], entity.name, links[n]))
    {
      var owner := entity.name;
      var i := 0;
      while i < |simples|
        invariant 0 <= i <= |simples|
        invariant tables == old(tables)
        invariant entity.identifiers == old(entity.identifiers) && entity.strongEntity == old(entity.strongEntity)
        invariant entity.hierarchy == old(entity.hierarchy)
        invariant entity.attributes == RemoveEachNamed(old(entity.attributes), simples[..i])
        invariant var satellites := ByPrefixedName(owner, simples[..i]);
          entities.Keys == old(entities).Keys + satellites.Keys &&
          (forall n :: n in old(entities) && n !in satellites ==> entities[n] == old(entities[n])) &&
          (forall n :: n in satellites ==> fresh(entities[n]) && IsSatellite(entities[n], owner, satellites[n]))
        invariant var links := ByPrefixedName(owner + "_AND_", simples[..i]);
          relationships.Keys == old(relationships).Keys + links.Keys &&
          (forall n :: n in old(relationships) && n !in links ==> relationships[n] == old(relationships[n])) &&
          (forall n :: n in links ==> fresh(relationships[n]) && IsLink(relationships[n], owner, links[n]))
      {
        var simple := simples[i];
        ghost var satellites := ByPrefixedName(owner, simples[..i]);
        ghost var links := ByPrefixedName(owner + "_AND_", simples[..i]);
        ghost var entitiesBefore := entities;
        ghost var relationshipsBefore := relationships;
        label Before:
        NormalizeMultiValueAttribute(entity, simple);
        PrefixedStep(owner, old(entity.attributes), simples, i);
        forall n | n in satellites && n != owner + simple.name
          ensures entities[n] == entitiesBefore[n] && fresh(entities[n]) && IsSatellite(entities[n], owner, satellites[n])
        {
          assert old@Before(IsSatellite(entitiesBefore[n], owner, satellites[n]));
        }
        forall n | n in links && n != owner + "_AND_" + simple.name
          ensures relationships[n] == relationshipsBefore[n] && fresh(relationships[n]) && IsLink(relationships[n], owner, links[n])
        {
          assert old@Before(IsLink(relationshipsBefore[n], owner, links[n]));
        }
        i := i + 1;
      }
      assert simples[..i] == simples;
    }

    /** `_normalize_composite_attribute`: the composite is removed and
        replaced, at the end of the list, by one plain attribute with the
        same name, cardinality and uniqueness (KEEP_COMPOSITE) or by its
        sub-attributes in order (KEEP_SIMPLE_ATTRIBUTES). */
    method NormalizeCompositeAttribute(entity: C.Entity, composite: C.Attribute, choice: CompositeAttributeChoice)
      requires composite.CompositeAttribute?
      modifies entity
      ensures entity.attributes == C.RemoveNamed(old(entity.attributes), composite.name) + CompositeReplacement(composite, choice)
      ensures entity.identifiers == old(entity.identifiers) && entity.strongEntity == old(entity.strongEntity)
      ensures entity.hierarchy == old(entity.hierarchy)
    {
      var newAttributes: seq<C.Attribute>;
      if choice == KeepComposite {
        newAttributes := [C.Attribute(composite.name, composite.cardinality, composite.isUnique)];
      } else {
        newAttributes := composite.simpleAttributes;
      }
      entity.RemoveAttribute(composite.name);
      ghost var removed := entity.attributes;
      var i := 0;
      while i < |newAttributes|
        invariant 0 <= i <= |newAttributes|
        invariant entity.attributes == removed + newAttributes[..i]
        invariant entity.identifiers == old(entity.identifiers) && entity.strongEntity == old(entity.strongEntity)
        invariant entity.hierarchy == old(entity.hierarchy)
      {
        entity.AddAttribute(newAttributes[i]);
        assert newAttributes[..i + 1] == newAttributes[..i] + [newAttributes[i]];
        i := i + 1;
      }
      assert newAttributes[..i] == newAttributes;
    }

    /** `_normalize_multi_value_attribute`: the attribute leaves the owner
        and becomes the entity `<owner><attribute>`, linked to the owner by
        the relationship `<owner>_AND_<attribute>`. */
    method NormalizeMultiValueAttribute(entity: C.Entity, attribute: C.Attribute)
      modifies this, entity
      ensures tables == old(tables)
      ensures entity.attributes == C.RemoveNamed(old(entity.attributes), attribute.name)
      ensures entity.identifiers == old(entity.identifiers) && entity.strongEntity == old(entity.strongEntity)
      ensures entity.hierarchy == old(entity.hierarchy)
      ensures Inserted(old(entities), entities, entity.name + attribute.name)
      ensures fresh(entities[entity.name + attribute.name])
      ensures IsSatellite(entities[entity.name + attribute.name], entity.name, attribute)
      ensures Inserted(old(relationships), relationships, entity.name + "_AND_" + attribute.name)
      ensures fresh(relationships[entity.name + "_AND_" + attribute.name])
      ensures IsLink(relationships[entity.name + "_AND_" + attribute.name], entity.name, attribute)
    {
      var newEntity := new C.Entity(entity.name + attribute.name);
      if attribute.isUnique {
        newEntity.AddIdentifier(attribute);
      } else {
        var newId := C.Attribute(attribute.name + "_id", C.Cardinality(C.MinOne, C.MaxOne), true);
        newEntity.AddIdentifier(newId);
        newEntity.AddAttribute(attribute);
      }
      entity.RemoveAttribute(attribute.name);
      entities := entities[newEntity.name := newEntity];
      var newRelationship := new C.Relationship(entity.name + "_AND_" + attribute.name, entity.name, newEntity.name,
                                                attribute.cardinality, C.Cardinality(C.MinOne, C.MaxOne));
      relationships := relationships[newRelationship.name := newRelationship];
    }

    /** Following strong-entity links from `name` reaches, within `depth`
        steps, an entity that already has a table or that is not weak. */
    ghost predicate Translatable(name: string, depth: nat)
      reads this, entities.Values
      decreases depth
    {
      name in tables ||
      (name in entities &&
       var owner := entities[name].strongEntity;
       owner.None? || owner.value == "" || (depth > 0 && Translatable(owner.value, depth - 1)))
    }

    /** The owner's primary key that a weak entity's table inherits. */
    function InheritedKeys(e: C.Entity): seq<R.Attribute>
      reads this, e, tables.Values
    {
      if e.strongEntity.Some? && e.strongEntity.value != "" && e.strongEntity.value in tables
      then tables[e.strongEntity.value].primaryKeys else []
    }

    /** `translate_entity`, with the owner's table read back after the owner
        is translated: an entity without a table gets one named after it whose
        primary key is its translated identifiers followed by its owner's
        primary key when it is weak, whose attributes are its translated
        attributes, and which has no foreign keys. Existing tables are kept. */
    method TranslateEntity(entityName: string, ghost depth: nat)
      requires Translatable(entityName, depth)
      modifies this
      decreases depth
      ensures entities == old(entities) && relationships == old(relationships)
      ensures entityName in tables
      ensures forall k :: k in old(tables) ==> k in tables && tables[k] == old(tables[k])
      ensures forall k :: k in tables && k !in old(tables) ==> fresh(tables[k])
      ensures entityName !in old(tables) ==>
        var e := entities[entityName];
        fresh(tables[entityName]) &&
        (e.strongEntity.Some? && e.strongEntity.value != "" ==> e.strongEntity.value in tables) &&
        IsTable(tables[entityName], e.name, TranslateAll(e.identifiers) + InheritedKeys(e), [], TranslateAll(e.attributes))
    {
      if entityName !in tables {
        var entity := entities[entityName];
        var primaryKeys := [];
        var i := 0;
        while i < |entity.identifiers|
          invariant 0 <= i <= |entity.identifiers|
          invariant primaryKeys == TranslateAll(entity.identifiers[..i])
        {
          primaryKeys := primaryKeys + [TranslateAttribute(entity.identifiers[i])];
          assert entity.identifiers[..i + 1][..i] == entity.identifiers[..i];
          i := i + 1;
        }
        assert entity.identifiers[..i] == entity.identifiers;
        var weakEntity := entity.strongEntity;
        if weakEntity.Some? && weakEntity.value != "" {
          if weakEntity.value !in tables {
            TranslateEntity(weakEntity.value, depth - 1);
          }
          var strongEntity := tables[weakEntity.value];
          primaryKeys := primaryKeys + strongEntity.primaryKeys;
        }
        var attributes := [];
        var j := 0;
        while j < |entity.attributes|
          invariant 0 <= j <= |entity.attributes|
          invariant attributes == TranslateAll(entity.attributes[..j])
        {
          attributes := attributes + [TranslateAttribute(entity.attributes[j])];
          assert entity.attributes[..j + 1][..j] == entity.attributes[..j];
          j := j + 1;
        }
        assert entity.attributes[..j] == entity.attributes;
        var newTable := new R.Table(entity.name, primaryKeys, attributes);
        tables := tables[entityName := newTable];
      }
    }

    /** `translate_entity` as written: the recursive call for a missing owner
        returns nothing, so reading the owner's primary key from its result
        fails whenever the owner had no table beforehand. */
    method TranslateEntityAsWritten(entityName: string, ghost depth: nat) returns (outcome: Outcome<string>)
      requires Translatable(entityName, depth)
      modifies this
      decreases depth
      ensures entities == old(entities) && relationships == old(relationships)
      ensures outcome.Fail? <==>
        entityName !in old(tables) &&
        var owner := entities[entityName].strongEntity;
        owner.Some? && owner.value != "" && owner.value !in old(tables)
      ensures outcome.Pass? ==> entityName in tables
    {
      outcome := Pass;
      if entityName !in tables {
        var entity := entities[entityName];
        var primaryKeys := TranslateAll(entity.identifiers);
        var weakEntity := entity.strongEntity;
        if weakEntity.Some? && weakEntity.value != "" {
          if weakEntity.value in tables {
            primaryKeys := primaryKeys + tables[weakEntity.value].primaryKeys;
          } else {
            var ignored := TranslateEntityAsWritten(weakEntity.value, depth - 1);
            outcome := Fail(weakEntity.value);
            return;
          }
        }
        var newTable := new R.Table(entity.name, primaryKeys, TranslateAll(entity.attributes));
        tables := tables[entityName := newTable];
      }
    }

    /** `translate_recursive_relationship`: between different maxima the
        table gains a `<key>B` foreign key per primary key; between equal
        maxima a new table named after the relationship holds a `<key>A`,
        `<key>B` pair per key, every key also a foreign key, and the
        relationship's attributes. */
    method TranslateRecursiveRelationship(table: R.Table, relationship: C.Relationship)
      modifies this, table
      ensures entities == old(entities) && relationships == old(relationships)
      ensures relationship.cardinalityFrom.max != relationship.cardinalityTo.max ==>
        table.foreignKeys == old(table.foreignKeys) + SuffixedKeys(table.primaryKeys, "B") &&
        table.attributes == old(table.attributes) && tables == old(tables)
      ensures relationship.cardinalityFrom.max == relationship.cardinalityTo.max ==>
        table.foreignKeys == old(table.foreignKeys) && table.attributes == old(table.attributes) &&
        Inserted(old(tables), tables, relationship.name) && fresh(tables[relationship.name]) &&
        IsTable(tables[relationship.name], relationship.name, PairedKeys(table.primaryKeys),
                PairedKeys(table.primaryKeys), TranslateAll(relationship.attributes))
    {
      if relationship.cardinalityFrom.max != relationship.cardinalityTo.max {
        var i := 0;
        while i < |table.primaryKeys|
          invariant 0 <= i <= |table.primaryKeys|
          invariant table.foreignKeys == old(table.foreignKeys) + SuffixedKeys(table.primaryKeys[..i], "B")
          invariant table.attributes == old(table.attributes) && tables == old(tables)
          invariant entities == old(entities) && relationships == old(relationships)
        {
          var key := table.primaryKeys[i];
          table.AddForeignKey(R.Attribute(key.name + "B", key.isOptional, key.isUnique));
          assert table.primaryKeys[..i + 1][..i] == table.primaryKeys[..i];
          i := i + 1;
        }
        assert table.primaryKeys[..i] == table.primaryKeys;
      } else {
        var newAttributes := TranslateAll(relationship.attributes);
        var newPrimaryKeys := [];
        var i := 0;
        while i < |table.primaryKeys|
          invariant 0 <= i <= |table.primaryKeys|
          invariant newPrimaryKeys == PairedKeys(table.primaryKeys[..i])
        {
          var key := table.primaryKeys[i];
          newPrimaryKeys := newPrimaryKeys + [R.Attribute(key.name + "A", key.isOptional, key.isUnique)];
          newPrimaryKeys := newPrimaryKeys + [R.Attribute(key.name + "B", key.isOptional, key.isUnique)];
          assert table.primaryKeys[..i + 1][..i] == table.primaryKeys[..i];
          i := i + 1;
        }
        assert table.primaryKeys[..i] == table.primaryKeys;
        var newTable := new R.Table(relationship.name, newPrimaryKeys, newAttributes);
        AddEachForeignKey(newTable, newTable.primaryKeys);
        tables := tables[newTable.name := newTable];
      }
    }

    /** `translate_relationship`. Its `choice` argument is ignored, so the
        helpers always run with their defaults: a foreign key for one-to-many
        and a merge for one-to-one. */
    method TranslateRelationship(relationshipName: string, choice: Option<RelationshipChoice>)
      requires relationshipName in relationships
      requires relationships[relationshipName].entityFrom in tables
      requires relationships[relationshipName].entityTo in tables
      modifies this, tables[relationships[relationshipName].entityFrom], tables[relationships[relationshipName].entityTo]
      ensures entities == old(entities) && relationships == old(relationships)
      ensures var r := relationships[relationshipName];
        var tf := old(tables[r.entityFrom]);
        var tt := old(tables[r.entityTo]);
        IsManyToMany(r) ==>
          Inserted(old(tables), tables, r.name) && fresh(tables[r.name]) &&
          IsTable(tables[r.name], r.name, tf.primaryKeys + tt.primaryKeys, tf.primaryKeys + tt.primaryKeys,
                  TranslateAll(r.attributes)) &&
          unchanged(tf, tt)
      ensures var r := relationships[relationshipName];
        var tf := old(tables[r.entityFrom]);
        var tt := old(tables[r.entityTo]);
        r.cardinalityFrom.max == C.MaxMany && r.cardinalityTo.max == C.MaxOne ==>
          tables == old(tables) &&
          tt.foreignKeys == old(tt.foreignKeys) + tf.primaryKeys &&
          tt.attributes == old(tt.attributes) + TranslateAll(r.attributes) &&
          (tf != tt ==> unchanged(tf))
      ensures var r := relationships[relationshipName];
        var tf := old(tables[r.entityFrom]);
        var tt := old(tables[r.entityTo]);
        r.cardinalityFrom.max == C.MaxOne && r.cardinalityTo.max == C.MaxMany ==>
          tables == old(tables) &&
          tf.foreignKeys == old(tf.foreignKeys) + tt.primaryKeys &&
          tf.attributes == old(tf.attributes) + TranslateAll(r.attributes) &&
          (tf != tt ==> unchanged(tt))
      ensures var r := relationships[relationshipName];
        var tf := old(tables[r.entityFrom]);
        var tt := old(tables[r.entityTo]);
        IsOneToOne(r) && r.cardinalityFrom.min == C.MinZero && r.cardinalityTo.min == C.MinZero ==>
          tables == old(tables) &&
          tf.foreignKeys == old(tf.foreignKeys) + tt.primaryKeys &&
          tf.attributes == old(tf.attributes) + TranslateAll(r.attributes) &&
          (tf != tt ==> unchanged(tt))
      ensures var r := relationships[relationshipName];
        var tf := old(tables[r.entityFrom]);
        var tt := old(tables[r.entityTo]);
        IsOneToOne(r) && r.cardinalityFrom.min == C.MinOne ==>
          Inserted(old(tables), tables, tf.name + tt.name) && fresh(tables[tf.name + tt.name]) &&
          IsTable(tables[tf.name + tt.name], tf.name + tt.name, tf.primaryKeys,
                  old(tf.foreignKeys) + old(tt.foreignKeys),
                  old(tf.attributes) + old(tt.attributes) + TranslateAll(r.attributes)) &&
          unchanged(tf, tt)
      ensures var r := relationships[relationshipName];
        var tf := old(tables[r.entityFrom]);
        var tt := old(tables[r.entityTo]);
        IsOneToOne(r) && r.cardinalityFrom.min == C.MinZero && r.cardinalityTo.min == C.MinOne ==>
          Inserted(old(tables), tables, tt.name + tf.name) && fresh(tables[tt.name + tf.name]) &&
          IsTable(tables[tt.name + tf.name], tt.name + tf.name, tt.primaryKeys,
                  old(tt.foreignKeys) + old(tf.foreignKeys),
                  old(tt.attributes) + old(tf.attributes) + TranslateAll(r.attributes)) &&
          unchanged(tf, tt)
    {
      var relationship := relationships[relationshipName];
      var tableFrom := tables[relationship.entityFrom];
      var tableTo := tables[relationship.entityTo];
      if relationship.cardinalityFrom.max == C.MaxMany && relationship.cardinalityTo.max == C.MaxMany {
        TranslateManyToManyRelationship(tableFrom, tableTo, relationship);
      } else if relationship.cardinalityFrom.max == C.MaxMany {
        TranslateOneToManyRelationship(tableTo, tableFrom, relationship, AddForeignKey);
      } else if relationship.cardinalityTo.max == C.MaxMany {
        TranslateOneToManyRelationship(tableFrom, tableTo, relationship, AddForeignKey);
      } else {
        TranslateOneToOneRelationship(tableFrom, tableTo, relationship, MergeIntoSingleTable);
      }
    }

    /** `_translate_many_to_many_relationship`: a new table named after the
        relationship whose primary key is both primary keys, every key also a
        foreign key, holding the relationship's attributes. */
    method TranslateManyToManyRelationship(tableFrom: R.Table, tableTo: R.Table, relationship: C.Relationship)
      modifies this
      ensures entities == old(entities) && relationships == old(relationships)
      ensures Inserted(old(tables), tables, relationship.name) && fresh(tables[relationship.name])
      ensures IsTable(tables[relationship.name], relationship.name, tableFrom.primaryKeys + tableTo.primaryKeys,
                      tableFrom.primaryKeys + tableTo.primaryKeys, TranslateAll(relationship.attributes))
    {
      var newAttributes := [];
      var i := 0;
      while i < |relationship.attributes|
        invariant 0 <= i <= |relationship.attributes|
        invariant newAttributes == TranslateAll(relationship.attributes[..i])
      {
        newAttributes := newAttributes + [TranslateAttribute(relationship.attributes[i])];
        assert relationship.attributes[..i + 1][..i] == relationship.attributes[..i];
        i := i + 1;
      }
      assert relationship.attributes[..i] == relationship.attributes;
      var newTable := new R.Table(relationship.name, tableFrom.primaryKeys + tableTo.primaryKeys, newAttributes);
      AddEachForeignKey(newTable, newTable.primaryKeys);
      tables := tables[newTable.name := newTable];
    }

    /** `_translate_one_to_many_relationship`: an association table for
        RELATIONSHIP_TABLE, otherwise foreign keys on the one side. */
    method TranslateOneToManyRelationship(oneSide: R.Table, manySide: R.Table, relationship: C.Relationship,
                                          choice: RelationshipChoice)
      modifies this, oneSide
      ensures entities == old(entities) && relationships == old(relationships)
      ensures choice == RelationshipTable ==>
        Inserted(old(tables), tables, relationship.name) && fresh(tables[relationship.name]) &&
        IsTable(tables[relationship.name], relationship.name, oneSide.primaryKeys + manySide.primaryKeys,
                oneSide.primaryKeys + manySide.primaryKeys, TranslateAll(relationship.attributes)) &&
        unchanged(oneSide)
      ensures choice != RelationshipTable ==>
        tables == old(tables) &&
        oneSide.foreignKeys == old(oneSide.foreignKeys) + manySide.primaryKeys &&
        oneSide.attributes == old(oneSide.attributes) + TranslateAll(relationship.attributes)
    {
      if choice == RelationshipTable {
        TranslateManyToManyRelationship(oneSide, manySide, relationship);
      } else {
        AddForeignKeysAndAttributes(oneSide, manySide, relationship.attributes);
      }
    }

    /** `_translate_one_to_one_relationship`: when both sides are optional,
        an association table or foreign keys on the from side; otherwise the
        mandatory side (from when its minimum is one, else to) is the main
        table of a merge, of an association table, or of foreign keys. */
    method TranslateOneToOneRelationship(tableFrom: R.Table, tableTo: R.Table, relationship: C.Relationship,
                                         choice: RelationshipChoice)
      modifies this, tableFrom, tableTo
      ensures entities == old(entities) && relationships == old(relationships)
      ensures var bothOptional := relationship.cardinalityFrom.min == C.MinZero && relationship.cardinalityTo.min == C.MinZero;
        var main := if bothOptional || relationship.cardinalityFrom.min == C.MinOne then tableFrom else tableTo;
        var other := if main == tableFrom then tableTo else tableFrom;
        (choice == RelationshipTable ==>
          Inserted(old(tables), tables, relationship.name) && fresh(tables[relationship.name]) &&
          IsTable(tables[relationship.name], relationship.name, main.primaryKeys + other.primaryKeys,
                  main.primaryKeys + other.primaryKeys, TranslateAll(relationship.attributes)) &&
          unchanged(tableFrom, tableTo)) &&
        (choice == MergeIntoSingleTable && !bothOptional ==>
          Inserted(old(tables), tables, main.name + other.name) && fresh(tables[main.name + other.name]) &&
          IsTable(tables[main.name + other.name], main.name + other.name, main.primaryKeys,
                  old(main.foreignKeys) + old(other.foreignKeys),
                  old(main.attributes) + old(other.attributes) + TranslateAll(relationship.attributes)) &&
          unchanged(tableFrom, tableTo)) &&
        (choice == AddForeignKey || (choice == MergeIntoSingleTable && bothOptional) ==>
          tables == old(tables) &&
          main.foreignKeys == old(main.foreignKeys) + other.primaryKeys &&
          main.attributes == old(main.attributes) + TranslateAll(relationship.attributes) &&
          (main != other ==> unchanged(other)))
    {
      if relationship.cardinalityFrom.min == C.MinZero && relationship.cardinalityTo.min == C.MinZero {
        if choice == RelationshipTable {
          TranslateManyToManyRelationship(tableFrom, tableTo, relationship);
        } else {
          AddForeignKeysAndAttributes(tableFrom, tableTo, relationship.attributes);
        }
      } else if relationship.cardinalityFrom.min == C.MinOne {
        if choice == MergeIntoSingleTable {
          MergeTablesIntoOne(tableFrom, tableTo, relationship.attributes);
        } else if choice == RelationshipTable {
          TranslateManyToManyRelationship(tableFrom, tableTo, relationship);
        } else {
          AddForeignKeysAndAttributes(tableFrom, tableTo, relationship.attributes);
        }
      } else {
        if choice == MergeIntoSingleTable {
          MergeTablesIntoOne(tableTo, tableFrom, relationship.attributes);
        } else if choice == RelationshipTable {
          TranslateManyToManyRelationship(tableTo, tableFrom, relationship);
        } else {
          AddForeignKeysAndAttributes(tableTo, tableFrom, relationship.attributes);
        }
      }
    }

    /** `_add_foreign_keys_and_attributes`: the main table gains the
        referenced table's primary key as foreign keys, then the translated
        relationship attributes. */
    method AddForeignKeysAndAttributes(mainTable: R.Table, referencedTable: R.Table,
                                       relationshipAttributes: seq<C.Attribute>)
      modifies mainTable
      ensures mainTable.foreignKeys == old(mainTable.foreignKeys) + referencedTable.primaryKeys
      ensures mainTable.attributes == old(mainTable.attributes) + TranslateAll(relationshipAttributes)
    {
      AddEachForeignKey(mainTable, referencedTable.primaryKeys);
      var i := 0;
      while i < |relationshipAttributes|
        invariant 0 <= i <= |relationshipAttributes|
        invariant mainTable.foreignKeys == old(mainTable.foreignKeys) + referencedTable.primaryKeys
        invariant mainTable.attributes == old(mainTable.attributes) + TranslateAll(relationshipAttributes[..i])
      {
        mainTable.AddAttribute(TranslateAttribute(relationshipAttributes[i]));
        assert relationshipAttributes[..i + 1][..i] == relationshipAttributes[..i];
        i := i + 1;
      }
      assert relationshipAttributes[..i] == relationshipAttributes;
    }

    /** `_merge_tables_into_one`: a new table `<main><secondary>` with the
        main table's primary key, the attributes of both tables then the
        relationship's, and the foreign keys of both tables. The two tables
        stay in the map. */
    method MergeTablesIntoOne(mainTable: R.Table, secondaryTable: R.Table, relationshipAttributes: seq<C.Attribute>)
      modifies this
      ensures entities == old(entities) && relationships == old(relationships)
      ensures Inserted(old(tables), tables, mainTable.name + secondaryTable.name)
      ensures fresh(tables[mainTable.name + secondaryTable.name])
      ensures IsTable(tables[mainTable.name + secondaryTable.name], mainTable.name + secondaryTable.name,
                      mainTable.primaryKeys, mainTable.foreignKeys + secondaryTable.foreignKeys,
                      mainTable.attributes + secondaryTable.attributes + TranslateAll(relationshipAttributes))
    {
      var newName := mainTable.name + secondaryTable.name;
      var newAttributes := mainTable.attributes + secondaryTable.attributes;
      var i := 0;
      while i < |relationshipAttributes|
        invariant 0 <= i <= |relationshipAttributes|
        invariant newAttributes == mainTable.attributes + secondaryTable.attributes + TranslateAll(relationshipAttributes[..i])
      {
        newAttributes := newAttributes + [TranslateAttribute(relationshipAttributes[i])];
        assert relationshipAttributes[..i + 1][..i] == relationshipAttributes[..i];
        i := i + 1;
      }
      assert relationshipAttributes[..i] == relationshipAttributes;
      var newTable := new R.Table(newName, mainTable.primaryKeys, newAttributes);
      AddEachForeignKey(newTable, mainTable.foreignKeys + secondaryTable.foreignKeys);
      tables := tables[newTable.name := newTable];
    }

    /** The `add_foreign_key` loop shared by the translators. */
    static method AddEachForeignKey(table: R.Table, keys: seq<R.Attribute>)
      modifies table
      ensures table.foreignKeys == old(table.foreignKeys) + keys
      ensures table.attributes == old(table.attributes)
    {
      var i := 0;
      while i < |keys|
        invariant 0 <= i <= |keys|
        invariant table.foreignKeys == old(table.foreignKeys) + keys[..i]
        invariant table.attributes == old(table.attributes)
      {
        table.AddForeignKey(keys[i]);
        assert keys[..i + 1] == keys[..i] + [keys[i]];
        i := i + 1;
      }
      assert keys[..i] == keys;
    }
  }
}
