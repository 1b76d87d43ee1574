/** The translator of the earlier draft at the repository root
    (er_translation.py). Unlike the later translator it keeps no state of its
    own: normalisation builds new values, translating an entity or an
    association returns a new table, and only foreign keys and relationship
    attributes are appended in place to the tables it is given. Recursive
    relationships name the second copy of a key `<key>2`. */
module LegacyTranslation {
  import opened Wrappers
  import opened Choices
  import C = Conceptual
  import LC = LegacyConceptual
  import LR = LegacyRelational

  /** `translate_attribute`: a column is optional exactly when the minimum
      cardinality is zero; name, type and uniqueness carry over. */
  function TranslateAttribute(a: LC.Attribute): (r: LR.Attribute)
    ensures r.Attribute? && r.name == a.name && r.attributeType == a.attributeType && r.isUnique == a.isUnique
    ensures r.isOptional <==> a.cardinality.min == C.MinZero
  {
    LR.Attribute(a.name, a.attributeType, a.cardinality.min == C.MinZero, a.isUnique)
  }

  /** Every attribute translated, in order. */
  function TranslateAll(attributes: seq<LC.Attribute>): (r: seq<LR.Attribute>)
    ensures |r| == |attributes|
    ensures forall k :: 0 <= k < |attributes| ==> r[k] == TranslateAttribute(attributes[k])
  {
    if attributes == [] then []
    else TranslateAll(attributes[..|attributes| - 1]) + [TranslateAttribute(attributes[|attributes| - 1])]
  }

  /** A plain column with the fields of `key` and `suffix` added to its name. */
  function Renamed(key: LR.Attribute, suffix: string): LR.Attribute
  {
    LR.Attribute(key.name + suffix, key.attributeType, key.isOptional, key.isUnique)
  }

  /** The foreign keys of a recursive relationship between different maxima:
      a `<key>2` column per primary key, in order. */
  function SecondKeys(keys: seq<LR.Attribute>): (r: seq<LR.Attribute>)
    ensures |r| == |keys|
    ensures forall k :: 0 <= k < |keys| ==> r[k] == Renamed(keys[k], "2")
  {
    if keys == [] then [] else SecondKeys(keys[..|keys| - 1]) + [Renamed(keys[|keys| - 1], "2")]
  }

  /** The primary key of the table of a recursive relationship between equal
      maxima: a plain copy of every key followed by its `<key>2` twin. */
  function PairedKeys(keys: seq<LR.Attribute>): (r: seq<LR.Attribute>)
    ensures |r| == 2 * |keys|
    ensures forall k :: 0 <= k < |keys| ==> r[2 * k] == Renamed(keys[k], "") && r[2 * k + 1] == Renamed(keys[k], "2")
  {
    if keys == [] then []
    else
      var init := PairedKeys(keys[..|keys| - 1]);
      var last := keys[|keys| - 1];
      assert forall k :: 0 <= k < |keys| - 1 ==> keys[..|keys| - 1][k] == keys[k];
      init + [Renamed(last, ""), Renamed(last, "2")]
  }

  /** The table has the given name and columns. */
  predicate IsTable(t: LR.Table, name: string, primaryKey: seq<LR.Attribute>,
                    foreignKey: seq<LR.Attribute>, attributes: seq<LR.Attribute>)
    reads t
  {
    t.name == name && t.primaryKey == primaryKey && t.foreignKey == foreignKey && t.attributes == attributes
  }

  // ---------------------------------------------------------------------
  // Normalisation

  type CompositeChoices = map<string, map<string, set<CompositeAttributeChoice>>>

  /** `get_composite_attributes_choices` as written: the first composite
      attribute recorded for an entity is offered KEEP_COMPOSITE alone, and
      every later one both choices. Other entities and other attributes keep
      their entries; a simple attribute changes nothing. */
  function GetCompositeAttributesChoices(entity: LC.Entity, attribute: LC.Attribute, choices: CompositeChoices): (r: CompositeChoices)
    ensures !attribute.CompositeAttribute? ==> r == choices
    ensures attribute.CompositeAttribute? ==>
      r.Keys == choices.Keys + {entity.name} && attribute.name in r[entity.name] &&
      (forall e :: e in choices && e != entity.name ==> r[e] == choices[e])
    ensures attribute.CompositeAttribute? && entity.name in choices ==>
      r[entity.name][attribute.name] == BothCompositeChoices &&
      r[entity.name].Keys == choices[entity.name].Keys + {attribute.name} &&
      (forall a :: a in choices[entity.name] && a != attribute.name ==> r[entity.name][a] == choices[entity.name][a])
    ensures attribute.CompositeAttribute? && entity.name !in choices ==>
      r[entity.name].Keys == {attribute.name} && r[entity.name][attribute.name] == {KeepComposite}
  {
    if !attribute.CompositeAttribute? then choices
    else if entity.name in choices then
      choices[entity.name := choices[entity.name][attribute.name := BothCompositeChoices]]
    else choices[entity.name := map[attribute.name := {KeepComposite}]]
  }

  /** What is offered for a composite attribute depends on whether another
      composite of the same entity was recorded before it: of two composites
      recorded in turn, the first is offered KEEP_COMPOSITE alone and the
      second both choices. */
  lemma ChoicesDependOnRecordingOrder(entity: LC.Entity, first: LC.Attribute, second: LC.Attribute, choices: CompositeChoices)
    requires first.CompositeAttribute? && second.CompositeAttribute? && first.name != second.name
    requires entity.name !in choices
    ensures var once := GetCompositeAttributesChoices(entity, first, choices);
            var twice := GetCompositeAttributesChoices(entity, second, once);
            twice[entity.name][first.name] == {KeepComposite} &&
            twice[entity.name][second.name] == BothCompositeChoices
  {
    var once := GetCompositeAttributesChoices(entity, first, choices);
    assert once[entity.name][first.name] == {KeepComposite};
  }

  /** `Attribute(a.name, a.cardinality, a.attribute_type, a.is_unique)`: the
      plain attribute with a's fields and no sub-attributes. */
  function Plain(a: LC.Attribute): (p: LC.Attribute)
    ensures p.Attribute?
    ensures p.name == a.name && p.cardinality == a.cardinality
    ensures p.attributeType == a.attributeType && p.isUnique == a.isUnique
    ensures a.Attribute? ==> p == a
  {
    LC.Attribute(a.name, a.cardinality, a.attributeType, a.isUnique)
  }

  /** A value returned by a normaliser: one attribute, a list of them, or
      nothing. */
  datatype Normalized = Single(attribute: LC.Attribute) | Several(attributes: seq<LC.Attribute>) | Nothing

  /** `normalize_composite_attribute`: KEEP_COMPOSITE gives one plain
      attribute with the composite's fields, KEEP_SIMPLE_ATTRIBUTES gives the
      sub-attributes in order, and no choice gives nothing. The composite
      itself is a value and is left as it is. */
  function NormalizeCompositeAttribute(composite: LC.Attribute, choice: Option<CompositeAttributeChoice>): (r: Normalized)
    requires composite.CompositeAttribute?
    ensures choice == Some(KeepComposite) ==>
      r.Single? && r.attribute.Attribute? && r.attribute.name == composite.name &&
      r.attribute.cardinality == composite.cardinality && r.attribute.attributeType == composite.attributeType &&
      r.attribute.isUnique == composite.isUnique
    ensures choice == Some(KeepSimpleAttributes) ==> r == Several(composite.simpleAttributes)
    ensures choice.None? <==> r == Nothing
  {
    match choice
    case Some(KeepComposite) => Single(Plain(composite))
    case Some(KeepSimpleAttributes) => Several(composite.simpleAttributes)
    case None => Nothing
  }

  /** The new identifier of the entity made from a non-unique multivalued
      attribute: a unique, mandatory, single-valued `<name>_id` integer. */
  function NewIdentifier(a: LC.Attribute): (id: LC.Attribute)
    ensures id.Attribute? && id.name == a.name + "_id" && id.isUnique
    ensures id.cardinality == C.Cardinality(C.MinOne, C.MaxOne) && id.attributeType == "int"
  {
    LC.Attribute(a.name + "_id", C.Cardinality(C.MinOne, C.MaxOne), "int", true)
  }

  /** `normalize_multi_value_attribute` with the entity's fields in the order
      the constructor declares them: a new entity named owner ++ attribute,
      neither weak nor in a hierarchy, whose single identifier is unique and
      is the attribute itself when that is unique; otherwise the identifier
      is `<name>_id` and the attribute becomes the entity's only attribute. */
  function NormalizeMultiValueAttribute(entity: LC.Entity, attribute: LC.Attribute): (e: LC.Entity)
    ensures e.name == entity.name + attribute.name && e.weakEntity == "" && e.hierarchy.None?
    ensures |e.identifier| == 1 && e.identifier[0].isUnique
    ensures attribute.isUnique ==> e.identifier == [attribute] && e.attributes == []
    ensures !attribute.isUnique ==> e.identifier == [NewIdentifier(attribute)] && e.attributes == [attribute]
  {
    if attribute.isUnique then LC.Entity(entity.name + attribute.name, [attribute], "", [], None)
    else LC.Entity(entity.name + attribute.name, [NewIdentifier(attribute)], "", [attribute], None)
  }

  /** A positional argument of the draft's `Entity(...)` call. */
  datatype Argument = NoneArgument | AttributeArgument(attribute: LC.Attribute) | ListArgument(items: seq<LC.Attribute>)

  /** The positional arguments of an `Entity(name, identifier, weak_entity,
      attributes, hierarchy)` call. */
  datatype EntityCall = EntityCall(name: string, identifier: Argument, weakEntity: Argument,
                                   attributes: Argument, hierarchy: Option<LC.Hierarchy>)

  /** `normalize_multi_value_attribute` as written: the arguments are passed
      as `(name, identifier, attributes, None)`, so the identifier is a bare
      attribute rather than a list, the attribute list lands in the
      weak-entity slot and the attributes slot receives None. For a
      non-unique attribute the weak-entity slot is a non-empty list, which
      the draft's `translate_entity` would take for an owner. */
  function NormalizeMultiValueAttributeAsWritten(entity: LC.Entity, attribute: LC.Attribute): (call: EntityCall)
    ensures call.name == entity.name + attribute.name && call.hierarchy.None?
    ensures !call.identifier.ListArgument? && call.attributes == NoneArgument
    ensures call.identifier == AttributeArgument(NormalizeMultiValueAttribute(entity, attribute).identifier[0])
    ensures call.weakEntity == ListArgument(NormalizeMultiValueAttribute(entity, attribute).attributes)
    ensures !attribute.isUnique ==> call.weakEntity.items != []
  {
    if attribute.isUnique then EntityCall(entity.name + attribute.name, AttributeArgument(attribute), ListArgument([]), NoneArgument, None)
    else EntityCall(entity.name + attribute.name, AttributeArgument(NewIdentifier(attribute)), ListArgument([attribute]), NoneArgument, None)
  }

  /** The error `normalize_attribute` raises. */
  datatype CallError = MissingArgument(parameter: string)

  /** `normalize_attribute`: every normaliser it calls builds a value that is
      then discarded, so the entity is never changed. The call fails only for
      a multivalued composite under KEEP_SIMPLE_ATTRIBUTES with at least one
      sub-attribute, where `normalize_multi_value_attribute` is called with
      one argument instead of two. */
  function NormalizeAttribute(entity: LC.Entity, attribute: LC.Attribute, choice: Option<CompositeAttributeChoice>): (r: Outcome<CallError>)
    ensures r.Fail? <==>
      attribute.CompositeAttribute? && attribute.cardinality.max == C.MaxMany &&
      choice == Some(KeepSimpleAttributes) && attribute.simpleAttributes != []
    ensures r.Fail? ==> r.error == MissingArgument("attribute")
  {
    if attribute.CompositeAttribute? && attribute.cardinality.max == C.MaxMany then
      if choice == Some(KeepSimpleAttributes) && attribute.simpleAttributes != [] then Fail(MissingArgument("attribute"))
      else Pass
    else Pass
  }

  // ---------------------------------------------------------------------
  // Entities

  /** Following owner links from `name` reaches, within `depth` steps, an
      entity that is not weak or whose owner already has a table. */
  ghost predicate Translatable(tables: map<string, LR.Table>, entities: map<string, LC.Entity>, name: string, depth: nat)
    decreases depth
  {
    name in entities &&
    var owner := entities[name].weakEntity;
    owner == "" || owner in tables || (depth > 0 && Translatable(tables, entities, owner, depth - 1))
  }

  /** The primary key `translate_entity` gives an entity: its translated
      identifiers followed, for a weak entity, by the primary key of its
      owner's table, or by the owner's own primary key when the owner has no
      table yet. */
  ghost function PrimaryKeyOf(tables: map<string, LR.Table>, entities: map<string, LC.Entity>, name: string, depth: nat): seq<LR.Attribute>
    requires Translatable(tables, entities, name, depth)
    decreases depth
  {
    var e := entities[name];
    TranslateAll(e.identifier) +
      (if e.weakEntity == "" then []
       else if e.weakEntity in tables then tables[e.weakEntity].primaryKey
       else PrimaryKeyOf(tables, entities, e.weakEntity, depth - 1))
  }

  /** Any bound on the owner chain that is long enough gives the same key. */
  lemma {:induction false} PrimaryKeyOfDepth(tables: map<string, LR.Table>, entities: map<string, LC.Entity>, name: string,
                                              depth: nat, other: nat)
    requires Translatable(tables, entities, name, depth) && depth <= other
    ensures Translatable(tables, entities, name, other)
    ensures PrimaryKeyOf(tables, entities, name, depth) == PrimaryKeyOf(tables, entities, name, other)
    decreases depth
  {
    var owner := entities[name].weakEntity;
    if owner != "" && owner !in tables {
      PrimaryKeyOfDepth(tables, entities, owner, depth - 1, other - 1);
    }
  }

  /** `translate_entity`: a new table named after the entity, with the key
      above, the translated attributes and no foreign keys. The table is
      returned, not recorded: an owner translated along the way is dropped
      once its key has been read. */
  method TranslateEntity(tables: map<string, LR.Table>, entities: map<string, LC.Entity>, entityName: string, ghost depth: nat)
    returns (table: LR.Table)
    requires Translatable(tables, entities, entityName, depth)
    decreases depth
    ensures fresh(table)
    ensures IsTable(table, entities[entityName].name, PrimaryKeyOf(tables, entities, entityName, depth), [],
                    TranslateAll(entities[entityName].attributes))
  {
    var entity := entities[entityName];
    var primaryKeys := [];
    var i := 0;
    while i < |entity.identifier|
      invariant 0 <= i <= |entity.identifier|
      invariant primaryKeys == TranslateAll(entity.identifier[..i])
    {
      primaryKeys := primaryKeys + [TranslateAttribute(entity.identifier[i])];
      assert entity.identifier[..i + 1][..i] == entity.identifier[..i];
      i := i + 1;
    }
    assert entity.identifier[..i] == entity.identifier;
    var weakEntity := entity.weakEntity;
    if weakEntity != "" {
      var strongEntity;
      if weakEntity in tables {
        strongEntity := tables[weakEntity];
      } else {
        strongEntity := TranslateEntity(tables, entities, weakEntity, depth - 1);
      }
      primaryKeys := primaryKeys + strongEntity.primaryKey;
    }
    var attributes := [];
    var j := 0;
    while j < |entity.attributes|
      invariant 0 <= j <= |entity.attributes|
      invariant attributes == TranslateAll(entity.attributes[..j])
    {
      attributes := attributes + [TranslateAttribute(entity.attributes[j])];
      assert entity.attributes[..j + 1][..j] == entity.attributes[..j];
      j := j + 1;
    }
    assert entity.attributes[..j] == entity.attributes;
    table := new LR.Table(entity.name, primaryKeys, attributes);
  }

  // ---------------------------------------------------------------------
  // Relationships

  /** How a relationship is stored. */
  datatype Translation = AssociationTable | MergedTable | ForeignKeys

  /** The storage `translate_one_to_one_relationship` picks: the association
      table under RELATIONSHIP_TABLE, a merged table under
      MERGE_INTO_SINGLE_TABLE when a side is mandatory, foreign keys
      otherwise. */
  function OneToOneTranslation(relationship: LC.Relationship, choice: RelationshipChoice): (t: Translation)
    ensures t == AssociationTable <==> choice == RelationshipTable
    ensures t == MergedTable <==>
      choice == MergeIntoSingleTable &&
      (relationship.cardinalityFrom.min.MinOne? || relationship.cardinalityTo.min.MinOne?)
  {
    if choice == RelationshipTable then AssociationTable
    else if choice == MergeIntoSingleTable &&
            !(relationship.cardinalityFrom.min == C.MinZero && relationship.cardinalityTo.min == C.MinZero)
    then MergedTable
    else ForeignKeys
  }

  /** The storage `translate_relationship` picks: many-to-many always gets an
      association table; one-to-many gets one under RELATIONSHIP_TABLE and
      foreign keys otherwise; one-to-one as above. */
  function TranslationOf(relationship: LC.Relationship, choice: RelationshipChoice): (t: Translation)
    ensures relationship.cardinalityFrom.max == C.MaxMany && relationship.cardinalityTo.max == C.MaxMany ==>
      t == AssociationTable
    ensures t == AssociationTable <==>
      choice == RelationshipTable ||
      (relationship.cardinalityFrom.max == C.MaxMany && relationship.cardinalityTo.max == C.MaxMany)
    ensures t == MergedTable <==>
      relationship.cardinalityFrom.max.MaxOne? && relationship.cardinalityTo.max.MaxOne? &&
      choice == MergeIntoSingleTable &&
      (relationship.cardinalityFrom.min.MinOne? || relationship.cardinalityTo.min.MinOne?)
  {
    if relationship.cardinalityFrom.max == C.MaxMany && relationship.cardinalityTo.max == C.MaxMany then AssociationTable
    else if relationship.cardinalityFrom.max == C.MaxMany || relationship.cardinalityTo.max == C.MaxMany then
      if choice == RelationshipTable then AssociationTable else ForeignKeys
    else OneToOneTranslation(relationship, choice)
  }

  /** Whether the from side is the main side of a one-to-one relationship
      (the first key of an association table, the base of a merge, the
      holder of foreign keys): it is unless only the to side is mandatory. */
  function OneToOneMainIsFrom(relationship: LC.Relationship): (b: bool)
    ensures !b <==> relationship.cardinalityFrom.min.MinZero? && relationship.cardinalityTo.min.MinOne?
  {
    (relationship.cardinalityFrom.min == C.MinZero && relationship.cardinalityTo.min == C.MinZero) ||
    relationship.cardinalityFrom.min == C.MinOne
  }

  /** Whether the from side is the main side of `translate_relationship`:
      the side with the single maximum when exactly one maximum is many, the
      from side for many-to-many, and as above for one-to-one. */
  function MainIsFrom(relationship: LC.Relationship): (b: bool)
    ensures relationship.cardinalityFrom.max != relationship.cardinalityTo.max ==>
      (b <==> relationship.cardinalityFrom.max.MaxOne?)
    ensures relationship.cardinalityFrom.max == C.MaxMany && relationship.cardinalityTo.max == C.MaxMany ==> b
    ensures relationship.cardinalityFrom.max.MaxOne? && relationship.cardinalityTo.max.MaxOne? ==>
      b == OneToOneMainIsFrom(relationship)
  {
    if relationship.cardinalityFrom.max == C.MaxMany && relationship.cardinalityTo.max == C.MaxMany then true
    else if relationship.cardinalityFrom.max == C.MaxMany then false
    else if relationship.cardinalityTo.max == C.MaxMany then true
    else OneToOneMainIsFrom(relationship)
  }

  /** The table a translation creates from a main and another table: the
      association table named after the relationship, keyed (and referencing)
      both primary keys; or the merged table `<main><other>` with the main
      primary key, both tables' foreign keys and their attributes followed by
      the relationship's. */
  predicate IsNewTable(t: LR.Table, main: LR.Table, other: LR.Table, relationship: LC.Relationship, kind: Translation)
    reads t, main, other
  {
    match kind
    case AssociationTable =>
      IsTable(t, relationship.name, main.primaryKey + other.primaryKey, main.primaryKey + other.primaryKey,
              TranslateAll(relationship.attributes))
    case MergedTable =>
      IsTable(t, main.name + other.name, main.primaryKey, main.foreignKey + other.foreignKey,
              main.attributes + other.attributes + TranslateAll(relationship.attributes))
    case ForeignKeys => false
  }

  /** The in-place part of a translation: with foreign keys, the main table
      gains the other's primary key as foreign keys and the relationship's
      attributes, and the other table is untouched; with a new table, both
      tables are untouched. */
  twostate predicate SidesUpdated(main: LR.Table, other: LR.Table, relationship: LC.Relationship, kind: Translation)
    reads main, other
  {
    if kind == ForeignKeys then
      main.foreignKey == old(main.foreignKey) + other.primaryKey &&
      main.attributes == old(main.attributes) + TranslateAll(relationship.attributes) &&
      (main != other ==> unchanged(other))
    else unchanged(main, other)
  }

  /** The `add_foreign_key` loop over a list of keys. */
  method AddEachForeignKey(table: LR.Table, keys: seq<LR.Attribute>)
    modifies table
    ensures table.foreignKey == old(table.foreignKey) + keys
    ensures table.attributes == old(table.attributes)
  {
    var i := 0;
    while i < |keys|
      invariant 0 <= i <= |keys|
      invariant table.foreignKey == old(table.foreignKey) + keys[..i]
      invariant table.attributes == old(table.attributes)
    {
      table.AddForeignKey(keys[i]);
      assert keys[..i + 1] == keys[..i] + [keys[i]];
      i := i + 1;
    }
    assert keys[..i] == keys;
  }

  /** `add_foreign_keys_and_attributes`: the main table gains the referenced
      table's primary key as foreign keys, then the translated attributes
      (appended to its attribute list, as the later translator's
      `add_attribute` does). */
  method AddForeignKeysAndAttributes(mainTable: LR.Table, referencedTable: LR.Table, attributes: seq<LC.Attribute>)
    modifies mainTable
    ensures mainTable.foreignKey == old(mainTable.foreignKey) + referencedTable.primaryKey
    ensures mainTable.attributes == old(mainTable.attributes) + TranslateAll(attributes)
  {
    AddEachForeignKey(mainTable, referencedTable.primaryKey);
    var i := 0;
    while i < |attributes|
      invariant 0 <= i <= |attributes|
      invariant mainTable.foreignKey == old(mainTable.foreignKey) + referencedTable.primaryKey
      invariant mainTable.attributes == old(mainTable.attributes) + TranslateAll(attributes[..i])
    {
      mainTable.attributes := mainTable.attributes + [TranslateAttribute(attributes[i])];
      assert attributes[..i + 1][..i] == attributes[..i];
      i := i + 1;
    }
    assert attributes[..i] == attributes;
  }

  /** `merge_tables_into_one`: a new table `<main><secondary>` with the main
      primary key, the attributes of both tables then the translated
      relationship attributes, and the foreign keys of both tables. Neither
      table changes. */
  method MergeTablesIntoOne(mainTable: LR.Table, secondaryTable: LR.Table, attributes: seq<LC.Attribute>)
    returns (newTable: LR.Table)
    ensures fresh(newTable)
    ensures IsTable(newTable, mainTable.name + secondaryTable.name, mainTable.primaryKey,
                    mainTable.foreignKey + secondaryTable.foreignKey,
                    mainTable.attributes + secondaryTable.attributes + TranslateAll(attributes))
  {
    var newName := mainTable.name + secondaryTable.name;
    var newAttributes := mainTable.attributes + secondaryTable.attributes;
    var i := 0;
    while i < |attributes|
      invariant 0 <= i <= |attributes|
      invariant newAttributes == mainTable.attributes + secondaryTable.attributes + TranslateAll(attributes[..i])
    {
      newAttributes := newAttributes + [TranslateAttribute(attributes[i])];
      assert attributes[..i + 1][..i] == attributes[..i];
      i := i + 1;
    }
    assert attributes[..i] == attributes;
    newTable := new LR.Table(newName, mainTable.primaryKey, newAttributes);
    AddEachForeignKey(newTable, mainTable.foreignKey + secondaryTable.foreignKey);
  }

  /** `translate_many_to_many_relationship`: a new table named after the
      relationship whose primary key is both primary keys, every key also a
      foreign key, holding the translated relationship attributes. */
  method TranslateManyToManyRelationship(tableFrom: LR.Table, tableTo: LR.Table, relationship: LC.Relationship)
    returns (newTable: LR.Table)
    ensures fresh(newTable)
    ensures IsNewTable(newTable, tableFrom, tableTo, relationship, AssociationTable)
  {
    var newAttributes := [];
    var i := 0;
    while i < |relationship.attributes|
      invariant 0 <= i <= |relationship.attributes|
      invariant newAttributes == TranslateAll(relationship.attributes[..i])
    {
      newAttributes := newAttributes + [TranslateAttribute(relationship.attributes[i])];
      assert relationship.attributes[..i + 1][..i] == relationship.attributes[..i];
      i := i + 1;
    }
    assert relationship.attributes[..i] == relationship.attributes;
    newTable := new LR.Table(relationship.name, tableFrom.primaryKey + tableTo.primaryKey, newAttributes);
    AddEachForeignKey(newTable, newTable.primaryKey);
  }

  /** `translate_one_to_many_relationship`: RELATIONSHIP_TABLE returns an
      association table keyed one side first; any other choice gives the one
      side foreign keys and returns nothing. */
  method TranslateOneToManyRelationship(oneSide: LR.Table, manySide: LR.Table, relationship: LC.Relationship,
                                        choice: RelationshipChoice)
    returns (result: Option<LR.Table>)
    modifies oneSide
    ensures var kind := if choice == RelationshipTable then AssociationTable else ForeignKeys;
      SidesUpdated(oneSide, manySide, relationship, kind) &&
      (result.Some? <==> kind == AssociationTable) &&
      (result.Some? ==> fresh(result.value) && IsNewTable(result.value, oneSide, manySide, relationship, kind))
  {
    if choice == RelationshipTable {
      var newTable := TranslateManyToManyRelationship(oneSide, manySide, relationship);
      result := Some(newTable);
    } else {
      AddForeignKeysAndAttributes(oneSide, manySide, relationship.attributes);
      result := None;
    }
  }

  /** `translate_one_to_one_relationship`: the storage of
      `OneToOneTranslation`, around the main side of `OneToOneMainIsFrom`. */
  method TranslateOneToOneRelationship(tableFrom: LR.Table, tableTo: LR.Table, relationship: LC.Relationship,
                                       choice: RelationshipChoice)
    returns (result: Option<LR.Table>)
    modifies tableFrom, tableTo
    ensures var main := if OneToOneMainIsFrom(relationship) then tableFrom else tableTo;
      var other := if OneToOneMainIsFrom(relationship) then tableTo else tableFrom;
      var kind := OneToOneTranslation(relationship, choice);
      SidesUpdated(main, other, relationship, kind) &&
      (result.Some? <==> kind != ForeignKeys) &&
      (result.Some? ==> fresh(result.value) && IsNewTable(result.value, main, other, relationship, kind))
  {
    if relationship.cardinalityFrom.min == C.MinZero && relationship.cardinalityTo.min == C.MinZero {
      if choice == RelationshipTable {
        var newTable := TranslateManyToManyRelationship(tableFrom, tableTo, relationship);
        result := Some(newTable);
      } else {
        AddForeignKeysAndAttributes(tableFrom, tableTo, relationship.attributes);
        result := None;
      }
    } else if relationship.cardinalityFrom.min == C.MinOne {
      if choice == MergeIntoSingleTable {
        var newTable := MergeTablesIntoOne(tableFrom, tableTo, relationship.attributes);
        result := Some(newTable);
      } else if choice == RelationshipTable {
        var newTable := TranslateManyToManyRelationship(tableFrom, tableTo, relationship);
        result := Some(newTable);
      } else {
        AddForeignKeysAndAttributes(tableFrom, tableTo, relationship.attributes);
        result := None;
      }
    } else {
      if choice == MergeIntoSingleTable {
        var newTable := MergeTablesIntoOne(tableTo, tableFrom, relationship.attributes);
        result := Some(newTable);
      } else if choice == RelationshipTable {
        var newTable := TranslateManyToManyRelationship(tableTo, tableFrom, relationship);
        result := Some(newTable);
      } else {
        AddForeignKeysAndAttributes(tableTo, tableFrom, relationship.attributes);
        result := None;
      }
    }
  }

  /** `translate_relationship` with the helpers' tables returned: the storage
      of `TranslationOf` around the main side of `MainIsFrom`; the new table,
      when there is one, is the result. */
  method TranslateRelationship(tables: map<string, LR.Table>, relationship: LC.Relationship, choice: RelationshipChoice)
    returns (result: Option<LR.Table>)
    requires relationship.entityFrom in tables && relationship.entityTo in tables
    modifies tables[relationship.entityFrom], tables[relationship.entityTo]
    ensures var main := if MainIsFrom(relationship) then tables[relationship.entityFrom] else tables[relationship.entityTo];
      var other := if MainIsFrom(relationship) then tables[relationship.entityTo] else tables[relationship.entityFrom];
      var kind := TranslationOf(relationship, choice);
      SidesUpdated(main, other, relationship, kind) &&
      (result.Some? <==> kind != ForeignKeys) &&
      (result.Some? ==> fresh(result.value) && IsNewTable(result.value, main, other, relationship, kind))
  {
    var tableFrom := tables[relationship.entityFrom];
    var tableTo := tables[relationship.entityTo];
    if relationship.cardinalityFrom.max == C.MaxMany && relationship.cardinalityTo.max == C.MaxMany {
      var newTable := TranslateManyToManyRelationship(tableFrom, tableTo, relationship);
      result := Some(newTable);
    } else if relationship.cardinalityFrom.max == C.MaxMany {
      result := TranslateOneToManyRelationship(tableTo, tableFrom, relationship, choice);
    } else if relationship.cardinalityTo.max == C.MaxMany {
      result := TranslateOneToManyRelationship(tableFrom, tableTo, relationship, choice);
    } else {
      result := TranslateOneToOneRelationship(tableFrom, tableTo, relationship, choice);
    }
  }

  /** `translate_relationship` as written: the tables change as above, but
      only the many-to-many branch returns its table; the association or
      merged table a helper builds for the other branches is dropped. */
  method TranslateRelationshipAsWritten(tables: map<string, LR.Table>, relationship: LC.Relationship,
                                        choice: RelationshipChoice)
    returns (result: Option<LR.Table>)
    requires relationship.entityFrom in tables && relationship.entityTo in tables
    modifies tables[relationship.entityFrom], tables[relationship.entityTo]
    ensures var main := if MainIsFrom(relationship) then tables[relationship.entityFrom] else tables[relationship.entityTo];
      var other := if MainIsFrom(relationship) then tables[relationship.entityTo] else tables[relationship.entityFrom];
      SidesUpdated(main, other, relationship, TranslationOf(relationship, choice)) &&
      (result.Some? <==> relationship.cardinalityFrom.max == C.MaxMany && relationship.cardinalityTo.max == C.MaxMany) &&
      (result.Some? ==> fresh(result.value) && IsNewTable(result.value, main, other, relationship, AssociationTable))
  {
    var tableFrom := tables[relationship.entityFrom];
    var tableTo := tables[relationship.entityTo];
    if relationship.cardinalityFrom.max == C.MaxMany && relationship.cardinalityTo.max == C.MaxMany {
      var newTable := TranslateManyToManyRelationship(tableFrom, tableTo, relationship);
      return Some(newTable);
    } else if relationship.cardinalityFrom.max == C.MaxMany {
      var ignored := TranslateOneToManyRelationship(tableTo, tableFrom, relationship, choice);
    } else if relationship.cardinalityTo.max == C.MaxMany {
      var ignored := TranslateOneToManyRelationship(tableFrom, tableTo, relationship, choice);
    } else {
      var ignored := TranslateOneToOneRelationship(tableFrom, tableTo, relationship, choice);
    }
    result := None;
  }

  /** `translate_recursive_relationship`: between different maxima the table
      gains a `<key>2` foreign key per primary key and nothing is returned;
      between equal maxima the table is untouched and a new table named after
      the relationship is returned, keyed by every key and its `<key>2` twin,
      all of them also foreign keys, holding the relationship's attributes. */
  method TranslateRecursiveRelationship(table: LR.Table, relationship: LC.Relationship)
    returns (result: Option<LR.Table>)
    modifies table
    ensures relationship.cardinalityFrom.max != relationship.cardinalityTo.max ==>
      result.None? && table.foreignKey == old(table.foreignKey) + SecondKeys(table.primaryKey) &&
      table.attributes == old(table.attributes)
    ensures relationship.cardinalityFrom.max == relationship.cardinalityTo.max ==>
      unchanged(table) && result.Some? && fresh(result.value) &&
      IsTable(result.value, relationship.name, PairedKeys(table.primaryKey), PairedKeys(table.primaryKey),
              TranslateAll(relationship.attributes))
  {
    if relationship.cardinalityFrom.max != relationship.cardinalityTo.max {
      var i := 0;
      while i < |table.primaryKey|
        invariant 0 <= i <= |table.primaryKey|
        invariant table.foreignKey == old(table.foreignKey) + SecondKeys(table.primaryKey[..i])
        invariant table.attributes == old(table.attributes)
      {
        table.AddForeignKey(Renamed(table.primaryKey[i], "2"));
        assert table.primaryKey[..i + 1][..i] == table.primaryKey[..i];
        i := i + 1;
      }
      assert table.primaryKey[..i] == table.primaryKey;
      result := None;
    } else {
      var newAttributes := [];
      var i := 0;
      while i < |relationship.attributes|
        invariant 0 <= i <= |relationship.attributes|
        invariant newAttributes == TranslateAll(relationship.attributes[..i])
      {
        newAttributes := newAttributes + [TranslateAttribute(relationship.attributes[i])];
        assert relationship.attributes[..i + 1][..i] == relationship.attributes[..i];
        i := i + 1;
      }
      assert relationship.attributes[..i] == relationship.attributes;
      var newPrimaryKeys := [];
      var j := 0;
      while j < |table.primaryKey|
        invariant 0 <= j <= |table.primaryKey|
        invariant newPrimaryKeys == PairedKeys(table.primaryKey[..j])
      {
        newPrimaryKeys := newPrimaryKeys + [Renamed(table.primaryKey[j], ""), Renamed(table.primaryKey[j], "2")];
        assert table.primaryKey[..j + 1][..j] == table.primaryKey[..j];
        j := j + 1;
      }
      assert table.primaryKey[..j] == table.primaryKey;
      var newTable := new LR.Table(relationship.name, newPrimaryKeys, newAttributes);
      AddEachForeignKey(newTable, newTable.primaryKey);
      result := Some(newTable);
    }
  }
}
