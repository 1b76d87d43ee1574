# ER-to-relational translation, modelled in Dafny

This project models the translation core of an entity-relationship (ER) to
relational translator. The translator reads an ER diagram made of entities, relationships, attributes and
generalisation hierarchies. It turns the diagram into relational tables. For every hierarchy it also
produces the SQL selectors, constraints and triggers that keep the collapsed tables consistent.

Two generations of the translator are modelled:

- **The `er_translator` package.** It has the following parts:
  - the conceptual and relational data classes (`Conceptual`, `Relational`, `Choices`);
  - the constraint records that are merged by selector value and by attribute name (`Constraints`);
  - the accumulator of generated checks (`HierarchyCheckStore`);
  - the SQL fragments, kept as the values the generator is given (`Sql`);
  - the copy and key helpers (`Utils`);
  - the entity/relationship translator (`ErTranslation.ERTranslator`);
  - the hierarchy translator (`HierarchyTranslation.HierarchyTranslator`), which collapses each
    hierarchy upwards into the father or downwards into the children.
- **The earlier draft at the repository root.** It consists of `data/conceptual.py`, `data/relational.py`
  and `er_translation.py`, modelled by `LegacyConceptual`, `LegacyRelational` and `LegacyTranslation`.

Objects that the source updates in place are Dafny classes with `modifies` clauses:

- entities, hierarchies and relationships;
- tables;
- conditions and constraints;
- the check store;
- the two translators.

Attributes, cardinalities and SQL fragments are datatypes. Each in-place method is tied to a value
function that specifies it, and the properties are proved about those functions. Three examples:

- `Condition.AddChecks` is tied to `MergeChecks`.
- `Constraint.AddConditions` is tied to `MergeConditions`.
- Every hierarchy-translator method is tied to the effects it has on the translator's output,
  `Apply(old(Snapshot()), Effects)`.

Python dictionaries whose iteration order matters are modelled as a map together with an insertion-order
sequence.

## Model

| member | source | states |
|---|---|---|
| Conceptual.ConvertCardinality | er_translator/data/conceptual.py:34-47 | the minimum is zero exactly for "Optional" and the maximum one exactly for "One"; every other text gives ONE / MANY |
| Conceptual.Plain | er_translator/utils/utils.py:12 | the plain copy keeps name, cardinality and uniqueness and has no sub-attributes |
| Conceptual.NewCompositeAttribute | er_translator/data/conceptual.py:177-180 | a new composite attribute keeps its arguments and has no sub-attributes |
| Conceptual.AddSimpleAttribute | er_translator/data/conceptual.py:186-187 | the sub-attribute is appended and name, cardinality and uniqueness are unchanged |
| Conceptual.Names | er_translator/data/conceptual.py:95-99 | one name per attribute, in order |
| Conceptual.IndexOfName | er_translator/data/conceptual.py:96-97 | the position found holds the name and no earlier attribute has it; none exactly when no attribute has the name |
| Conceptual.RemoveNamedSpec | er_translator/data/conceptual.py:95-99 | removal changes nothing when the name is absent and otherwise drops exactly the first attribute with that name, the rest keeping their order |
| Conceptual.Hierarchy.constructor | er_translator/data/conceptual.py:102-105 | a new hierarchy has no children and the given completeness and disjointness |
| Conceptual.Hierarchy.AddChild | er_translator/data/conceptual.py:119-120 | the child is appended and nothing else changes |
| Conceptual.Entity.constructor | er_translator/data/conceptual.py:50-55 | a new entity has no identifiers, attributes, strong entity or hierarchy |
| Conceptual.Entity.AddIdentifier | er_translator/data/conceptual.py:77-78 | the identifier is appended and the other fields stay |
| Conceptual.Entity.AddAttribute | er_translator/data/conceptual.py:80-81 | the attribute is appended and the other fields stay |
| Conceptual.Entity.SetStrongEntity | er_translator/data/conceptual.py:83-84 | only the owner changes |
| Conceptual.Entity.SetHierarchy | er_translator/data/conceptual.py:86-87 | only the hierarchy changes |
| Conceptual.Entity.AddChild | er_translator/data/conceptual.py:89-93 | with a hierarchy the child is appended to it and the call passes; without one it fails with NoHierarchy and nothing changes |
| Conceptual.Entity.RemoveAttribute | er_translator/data/conceptual.py:95-99 | the first attribute with the name is removed, or nothing when there is none; identifiers untouched |
| Conceptual.Relationship.constructor | er_translator/data/conceptual.py:123-129 | a new relationship keeps its endpoints and cardinalities and has no attributes |
| Conceptual.Relationship.AddAttribute | er_translator/data/conceptual.py:155-156 | the attribute is appended and nothing else changes |
| Relational.Table.constructor | er_translator/data/relational.py:2-6 | a new table keeps name, primary keys and attributes and has no foreign keys |
| Relational.Table.AddForeignKey | er_translator/data/relational.py:8-9 | the key is appended to the foreign keys only |
| Relational.Table.AddAttribute | er_translator/data/relational.py:11-12 | the attribute is appended to the attributes only |
| Constraints.MergeChecks | er_translator/data/constraint.py:13-21 | the old checks are a prefix of the result, which mentions exactly the names of both lists |
| Constraints.MergeChecksKeepsNamesDistinct | er_translator/data/constraint.py:13-21 | merging never yields two checks on the same attribute, even when the incoming list repeats one |
| Constraints.FirstNamed | er_translator/data/constraint.py:16-19 | when some check is about the name, the check returned is one of the list's checks about it |
| Constraints.MergeChecksFirstWins | er_translator/data/constraint.py:13-21 | every kept check is the first one about its attribute among the old checks followed by the incoming ones |
| Constraints.FindSelector | er_translator/data/constraint.py:34-35 | the position found has the selector value and no earlier one does; none exactly when no condition has it |
| Constraints.AddConditionSelectorValues | er_translator/data/constraint.py:32-40 | one merge step keeps every old condition's place and selector value, only adds checks to it, and adds the incoming selector value |
| Constraints.MergeConditionsKeepsExisting | er_translator/data/constraint.py:31-40 | old conditions keep their places and selector values and only gain checks; the selector values are those of both lists |
| Constraints.MergeConditionsKeepsSelectorsDistinct | er_translator/data/constraint.py:31-40 | distinct selector values stay distinct after a merge |
| Constraints.AddConditionNames | er_translator/data/constraint.py:32-40 | one step adds the incoming names to its selector value's checks and leaves every other value's checks alone |
| Constraints.MergeConditionsUnitesNames | er_translator/data/constraint.py:31-40 | under each selector value the checked names are exactly the old ones plus those of every incoming condition for it |
| Constraints.Condition.constructor | er_translator/data/constraint.py:8-11 | the condition holds the selector value and checks it is given |
| Constraints.Condition.AddChecks | er_translator/data/constraint.py:13-21 | the checks become `MergeChecks` of the old checks and the incoming ones |
| Constraints.Condition.HasCheckNamed | er_translator/data/constraint.py:15-19 | true exactly when some check is about the name |
| Constraints.ConditionValues | er_translator/data/constraint.py:29 | one value per condition object, in order |
| Constraints.Constraint.constructor | er_translator/data/constraint.py:24-29 | the constraint holds the names and conditions it is given |
| Constraints.Constraint.AddConditions | er_translator/data/constraint.py:31-40 | the constraint's value becomes `MergeConditions` of the old conditions and the incoming ones; the condition objects stay distinct, and an incoming condition merged away rather than appended keeps its value |
| Constraints.Constraint.MergeCondition | er_translator/data/constraint.py:33-40 | one incoming condition merged into the first with its selector value, or appended; every condition held before is still held |
| HierarchyCheckStore.HierarchyChecks.constructor | er_translator/data/hierachy_checks.py:2-5 | all three lists start empty |
| HierarchyCheckStore.HierarchyChecks.AddSelector | er_translator/data/hierachy_checks.py:19-20 | the selector is appended and the other lists stay |
| HierarchyCheckStore.HierarchyChecks.AddConstraint | er_translator/data/hierachy_checks.py:22-23 | the constraint is appended and the other lists stay |
| HierarchyCheckStore.HierarchyChecks.AddTrigger | er_translator/data/hierachy_checks.py:25-26 | the trigger is appended and the other lists stay |
| Utils.PlainAll | er_translator/utils/utils.py:11-16 | one plain copy per attribute, in order |
| Utils.CreateCopyFromEntity | er_translator/utils/utils.py:8-17 | a fresh entity named as given (or after the original), with plain copies of identifiers and attributes in order and no owner or hierarchy |
| Utils.GetPrimaryKeys | er_translator/utils/utils.py:19-23 | one identifier name per identifier, in order |
| Utils.RetrieveConnectedRelationships | er_translator/translation/hierarchy_translation.py:58 | a relationship key is listed exactly when it has an endpoint among the names |
| Utils.RetrieveConnectedRelationshipsInOrder | er_translator/translation/hierarchy_translation.py:58 | the result is the keys of the dictionary order at the connected positions, in that order; a position is connected exactly when its relationship has an endpoint among the names |
| Utils.RetrieveConnectedRelationshipsDistinct | er_translator/translation/hierarchy_translation.py:58 | no relationship is listed twice when the dictionary order repeats no key |
| Utils.GetAllFatherEntities | er_translator/translation/hierarchy_translation.py:29 | an entity key is listed exactly when it is in the dictionary order and that entity has a hierarchy |
| Utils.GetAllFatherEntitiesInOrder | er_translator/translation/hierarchy_translation.py:29 | the fathers are the keys of the dictionary order at the father positions, in that order; a position is a father position exactly when its entity has a hierarchy |
| Utils.GetAllFatherEntitiesDistinct | er_translator/translation/hierarchy_translation.py:29 | no father is listed twice when the dictionary order repeats no key |
| Utils.FathersListedOnce | er_translator/translation/hierarchy_translation.py:29-35 | when the order lists every entity key once, every entity with a hierarchy is listed once and nothing else is |
| ErTranslation.TranslateAttribute | er_translator/translation/er_translation.py:259-263 | a column is optional exactly when the attribute's minimum is zero; name and uniqueness carry over |
| ErTranslation.TranslateAll | er_translator/translation/er_translation.py:236-241 | one translated column per attribute, in order |
| ErTranslation.SuffixedKeys | er_translator/translation/er_translation.py:143-146 | one `<key>B` column per primary key, in order, with its optionality and uniqueness |
| ErTranslation.PairedKeys | er_translator/translation/er_translation.py:153-156 | the keys `<key>A`, `<key>B` for every key, in key order |
| ErTranslation.LastNamed | er_translator/translation/er_translation.py:53-57 | the attribute returned is in the list and has the name |
| ErTranslation.ByPrefixedNameSpec | er_translator/translation/er_translation.py:53-57 | the new entity and relationship names are exactly the prefixed sub-attribute names, each standing for the last sub-attribute of that name |
| ErTranslation.GetCompositeAttributesChoices | er_translator/translation/er_translation.py:37-42 | a composite attribute is offered both treatments; every other entry and every simple attribute change nothing |
| ErTranslation.GetRelationshipChoices | er_translator/translation/er_translation.py:129-140 | merging is offered for one-to-one unless both sides are optional; an association table and a foreign key for every non-many-to-many; many-to-many gets no entry |
| ErTranslation.ERTranslator.constructor | er_translator/translation/er_translation.py:6-9 | the translator keeps the diagram and has no tables |
| ErTranslation.ERTranslator.NormalizeAttribute | er_translator/translation/er_translation.py:44-62 | per case: the new entities and relationships, the owner's attribute list, and what is unchanged |
| ErTranslation.ERTranslator.NormalizeEachMultiValueAttribute | er_translator/translation/er_translation.py:53-57 | each sub-attribute becomes an entity and a link; a later one with the same name replaces an earlier one; the owner loses each name once |
| ErTranslation.ERTranslator.NormalizeCompositeAttribute | er_translator/translation/er_translation.py:64-80 | the composite is removed and its replacement (one plain attribute, or the sub-attributes in order) appended |
| ErTranslation.ERTranslator.NormalizeMultiValueAttribute | er_translator/translation/er_translation.py:82-100 | the attribute leaves the owner and becomes entity `<owner><attribute>` linked by `<owner>_AND_<attribute>`; only these two keys are added |
| ErTranslation.ERTranslator.TranslateEntity | er_translator/translation/er_translation.py:104-127 | an entity without a table gets one keyed by its identifiers then its owner's key, with its attributes and no foreign keys; existing tables kept |
| ErTranslation.ERTranslator.TranslateEntityAsWritten | er_translator/translation/er_translation.py:111-118 | fails exactly when a weak entity's owner had no table beforehand |
| ErTranslation.ERTranslator.TranslateRecursiveRelationship | er_translator/translation/er_translation.py:142-163 | unequal maxima: `<key>B` foreign keys on the table; equal maxima: a new table keyed by the `A`/`B` pairs, all of them foreign keys, with the relationship's attributes |
| ErTranslation.ERTranslator.TranslateRelationship | er_translator/translation/er_translation.py:165-181 | many-to-many: a new association table; one-to-many: foreign keys on the side with maximum one; one-to-one: a merge around the mandatory side, or foreign keys when both are optional; the rest unchanged |
| ErTranslation.ERTranslator.TranslateManyToManyRelationship | er_translator/translation/er_translation.py:184-194 | a new table keyed by both primary keys, all of them foreign keys, with the relationship's attributes; both tables unchanged |
| ErTranslation.ERTranslator.TranslateOneToManyRelationship | er_translator/translation/er_translation.py:196-203 | an association table for RELATIONSHIP_TABLE, otherwise the one side gains the other's key and the attributes |
| ErTranslation.ERTranslator.TranslateOneToOneRelationship | er_translator/translation/er_translation.py:205-234 | both optional: association table or foreign keys on the from side; otherwise the mandatory side is main for a merge, a table or foreign keys |
| ErTranslation.ERTranslator.AddForeignKeysAndAttributes | er_translator/translation/er_translation.py:236-241 | the main table gains the referenced primary key as foreign keys, then the translated attributes |
| ErTranslation.ERTranslator.MergeTablesIntoOne | er_translator/translation/er_translation.py:243-257 | a new table `<main><secondary>` with the main key, both tables' attributes then the relationship's, and both tables' foreign keys |
| ErTranslation.ERTranslator.AddEachForeignKey | er_translator/translation/er_translation.py:191-192 | the keys are appended, in order, to the table's foreign keys |
| HierarchyTranslation.ChildSelectorsApart | er_translator/translation/hierarchy_translation.py:222-227 | different children get different selectors |
| HierarchyTranslation.ForeignKeyNameNamesOther | er_translator/translation/hierarchy_translation.py:229-235 | the column names an endpoint of the relationship and, for two different entities, not the child |
| HierarchyTranslation.NullChecks | er_translator/translation/hierarchy_translation.py:386-392 | one "is null" check per attribute, in order |
| HierarchyTranslation.NotNullChecks | er_translator/translation/hierarchy_translation.py:394-401 | one check per mandatory position, in order: the k-th is "is not null" on the attribute at the k-th mandatory position |
| HierarchyTranslation.MandatoryPositionsExact | er_translator/translation/hierarchy_translation.py:397 | the mandatory positions increase strictly and are exactly the positions of attributes whose minimum cardinality is one |
| HierarchyTranslation.NotNullChecksSpec | er_translator/translation/hierarchy_translation.py:394-401 | there is a check about a name exactly when a mandatory attribute has it |
| HierarchyTranslation.ForeignKeyColumns | er_translator/translation/hierarchy_translation.py:244-249 | one unique single-valued column per father identifier, optional exactly when the child's side is optional |
| HierarchyTranslation.RelationshipColumnsOf | er_translator/translation/hierarchy_translation.py:252-258 | one `<child>_<attribute>` column per relationship attribute, optional for an optional child |
| HierarchyTranslation.OptionalRelationshipRequiresNothing | er_translator/translation/hierarchy_translation.py:298-303 | for an optional child no foreign-key or relationship column gets a not-null check |
| HierarchyTranslation.OptionalColumnsRequireNothing | er_translator/translation/hierarchy_translation.py:394-401 | without a mandatory attribute there is no not-null check |
| HierarchyTranslation.SiblingNullChecksCover | er_translator/translation/hierarchy_translation.py:270-276 | every column of every sibling is checked null and nothing is checked not null |
| HierarchyTranslation.AllNullChecksAreNull | er_translator/translation/hierarchy_translation.py:283-294 | the partial hierarchy's father condition holds null checks only |
| HierarchyTranslation.DisjointChildConditions | er_translator/translation/hierarchy_translation.py:261-281 | one condition per child, in order, selected by the child's name |
| HierarchyTranslation.NullChecksAreNull | er_translator/translation/hierarchy_translation.py:386-392 | every check of `NullChecks` is "is null" |
| HierarchyTranslation.EntityChecksSigns | er_translator/translation/hierarchy_translation.py:386-401 | not-null checks are all "is not null", null checks all "is null", and every column has a null check |
| HierarchyTranslation.DisjointConditionsShape | er_translator/translation/hierarchy_translation.py:237-296 | one condition per child in order, then a father condition of null checks exactly when the hierarchy is partial |
| HierarchyTranslation.DisjointChildConditionCover | er_translator/translation/hierarchy_translation.py:262-279 | for any child, given the key and relationship columns: every sibling column is null; the mandatory columns are required when the child is the connected one and all of them null otherwise |
| HierarchyTranslation.DisjointChildConditionChecks | er_translator/translation/hierarchy_translation.py:261-281 | in a child's condition every sibling column is null; the relationship columns are required for the connected child and null otherwise |
| HierarchyTranslation.OverlappingConditionsSigns | er_translator/translation/hierarchy_translation.py:304-349 | "1" requires the connected child's and the relationship's mandatory columns; "0" requires all of them null |
| HierarchyTranslation.OverlappingChildConditionsSigns | er_translator/translation/hierarchy_translation.py:351-370 | "1" requires the child's mandatory columns; "0" requires all its columns null |
| HierarchyTranslation.OverlappingConstraintValues | er_translator/translation/hierarchy_translation.py:190-200 | one constraint per child, in order |
| HierarchyTranslation.OverlappingConstraintValuesAt | er_translator/translation/hierarchy_translation.py:190-200 | the constraint at position k is named after the k-th child, on its selector, with the connected or own conditions |
| HierarchyTranslation.SqlConstraintValuesShape | er_translator/translation/hierarchy_translation.py:187-206 | overlapping: per child a named constraint with a "1" and a "0" condition; disjoint: one constraint on the hierarchy selector; all for the father |
| HierarchyTranslation.ApplyConcat | er_translator/translation/hierarchy_translation.py:209-214 | producing output in two steps is producing it in one |
| HierarchyTranslation.ApplyKeepsConstraints | er_translator/translation/hierarchy_translation.py:209-214 | output only grows by appending and keeps one constraint per name |
| HierarchyTranslation.Merged | er_translator/translation/hierarchy_translation.py:190-200 | one merge effect per constraint, in order |
| HierarchyTranslation.Fired | er_translator/translation/hierarchy_translation.py:171-185 | one trigger effect per trigger, in order |
| HierarchyTranslation.ApplyFired | er_translator/translation/hierarchy_translation.py:171-185 | firing appends the triggers in order and changes nothing else |
| HierarchyTranslation.ApplyTriggers | er_translator/data/hierachy_checks.py:25-26 | applying effects appends exactly their triggers |
| HierarchyTranslation.OverlappingSelectorNamesOfDistinct | er_translator/translation/hierarchy_translation.py:80-95 | for distinct children, one "TYPE_<child>" selector per child, in order |
| HierarchyTranslation.ZeroOneSelectors | er_translator/translation/hierarchy_translation.py:90-95 | every name maps to the values "0" and "1" |
| HierarchyTranslation.SelectorsAdded | er_translator/translation/hierarchy_translation.py:97-99 | one selector per entry, in order, on the father |
| HierarchyTranslation.SelectorEffectsShape | er_translator/translation/hierarchy_translation.py:79-99 | disjoint: one selector on the father, named after all children, whose values are exactly the children followed by the father when partial and by nothing when total; overlapping with distinct children: a 0/1 selector per child, in order |
| HierarchyTranslation.ColumnChecks | er_translator/translation/hierarchy_translation.py:411-413 | one check per identifier name, on `<prefix>_<id>`, with the given sign |
| HierarchyTranslation.DownwardsAlternatives | er_translator/translation/hierarchy_translation.py:403-437 | one alternative per child, in order |
| HierarchyTranslation.DownwardsAlternativeChecks | er_translator/translation/hierarchy_translation.py:403-437 | the child's identifier copies are required and the siblings' null; with a sibling, a mandatory relationship attribute makes the alternative unsatisfiable |
| HierarchyTranslation.RelationshipAttributeChecksCover | er_translator/translation/hierarchy_translation.py:416-420 | every relationship attribute has a null check and every mandatory one a not-null check |
| HierarchyTranslation.OtherChildrenChecksCover | er_translator/translation/hierarchy_translation.py:422-432 | every other child's identifier copies and relationship columns are checked null |
| HierarchyTranslation.DownwardsMatches | er_translator/translation/hierarchy_translation.py:454-456 | one match per identifier, each between the two children's copies |
| HierarchyTranslation.ChildMatches | er_translator/translation/hierarchy_translation.py:472-474 | one match per identifier, on that identifier |
| HierarchyTranslation.PairTriggerCounts | er_translator/translation/hierarchy_translation.py:445-462 | for distinct children the inner loops emit one trigger per other child |
| HierarchyTranslation.RelationshipTriggerCount | er_translator/translation/hierarchy_translation.py:439-462 | many-to-many downward triggers number n·(n−1) for n distinct children |
| HierarchyTranslation.ChildTriggerCount | er_translator/translation/hierarchy_translation.py:464-477 | child-table downward triggers number n·(n−1) for n distinct children |
| HierarchyTranslation.HierarchiesEffects | er_translator/translation/hierarchy_translation.py:33-37 | one effect list per father |
| HierarchyTranslation.HierarchiesEffectsAt | er_translator/translation/hierarchy_translation.py:33-37 | the k-th entry is the k-th father's hierarchy translated as chosen (upwards by default) |
| HierarchyTranslation.HierarchiesEffectsSpec | er_translator/translation/hierarchy_translation.py:33-37 | every entry is its father's hierarchy effects |
| HierarchyTranslation.EmittedInOrder | er_translator/translation/hierarchy_translation.py:39-40 | one SQL constraint per kept name, in order, under its constraint's entity |
| HierarchyTranslation.HierarchyTranslator.constructor | er_translator/translation/hierarchy_translation.py:11-16 | given dictionary orders that list every key once, the diagram is kept and no output exists |
| HierarchyTranslation.HierarchyTranslator.TranslateHierarchies | er_translator/translation/hierarchy_translation.py:30-40 | every entity with a hierarchy is translated once and nothing else is; the output is every father's effects in order, then every kept constraint emitted |
| HierarchyTranslation.HierarchyTranslator.TranslateFathers | er_translator/translation/hierarchy_translation.py:33-37 | the output is the fathers' effects in order |
| HierarchyTranslation.HierarchyTranslator.EmitConstraints | er_translator/translation/hierarchy_translation.py:39-40 | each kept constraint is handed over once, in insertion order |
| HierarchyTranslation.HierarchyTranslator.TranslateHierarchy | er_translator/translation/hierarchy_translation.py:42-47 | the output gains the upward or downward effects as chosen |
| HierarchyTranslation.HierarchyTranslator.CollapseUpwards | er_translator/translation/hierarchy_translation.py:49-54 | the output gains the selectors, the relationships' checks, then the total constraint when total and overlapping |
| HierarchyTranslation.HierarchyTranslator.CollapseDownwards | er_translator/translation/hierarchy_translation.py:57-74 | the output gains each father relationship's downward effects, in dictionary order |
| HierarchyTranslation.HierarchyTranslator.CollapseDownwardsRelationship | er_translator/translation/hierarchy_translation.py:62-74 | many-to-many: pair triggers; otherwise the downward constraint when the father is `entity_from` and the from maximum is MANY, or the father is `entity_to` and the from maximum is ONE (a one-to-one relationship into the father included); child triggers in the remaining cases |
| HierarchyTranslation.HierarchyTranslator.SelectorDictionary | er_translator/translation/hierarchy_translation.py:80-95 | the dictionary is the selector table whose shape `SelectorEffectsShape` states |
| HierarchyTranslation.HierarchyTranslator.CreateSelectors | er_translator/translation/hierarchy_translation.py:79-99 | the output gains exactly the father's selectors, in order |
| HierarchyTranslation.HierarchyTranslator.CreateConstraintAndTrigger | er_translator/translation/hierarchy_translation.py:102-108 | the output gains the checks of every relationship touching a child, in dictionary order |
| HierarchyTranslation.HierarchyTranslator.CheckRelationship | er_translator/translation/hierarchy_translation.py:114-120 | dispatches on which endpoints are children |
| HierarchyTranslation.HierarchyTranslator.CheckRelationshipCardinalityBothChild | er_translator/translation/hierarchy_translation.py:122-138 | many-to-many: a trigger each way on its table; otherwise the one-side child's constraint and a trigger from the other child |
| HierarchyTranslation.HierarchyTranslator.CheckRecursiveRelationshipChildCardinality | er_translator/translation/hierarchy_translation.py:140-146 | many-to-many: "_A" and "_B" triggers; otherwise one trigger and the child's constraint |
| HierarchyTranslation.HierarchyTranslator.CheckRelationshipCardinalityFromChild | er_translator/translation/hierarchy_translation.py:148-157 | the child's constraint and trigger for a relationship from a child |
| HierarchyTranslation.HierarchyTranslator.CheckRelationshipCardinalityToChild | er_translator/translation/hierarchy_translation.py:159-169 | the child's constraint and trigger for a relationship to a child |
| HierarchyTranslation.HierarchyTranslator.CreateSqlTrigger | er_translator/translation/hierarchy_translation.py:171-185 | exactly one before-insert trigger, on the child's selector when overlapping and the hierarchy's otherwise |
| HierarchyTranslation.HierarchyTranslator.CreateSqlConstraint | er_translator/translation/hierarchy_translation.py:187-206 | the constraints whose shape `SqlConstraintValuesShape` states are merged in |
| HierarchyTranslation.HierarchyTranslator.CreateSqlConstraintOverlapping | er_translator/translation/hierarchy_translation.py:190-200 | one constraint per child merged in, in order |
| HierarchyTranslation.HierarchyTranslator.CreateSqlConstraintDisjoint | er_translator/translation/hierarchy_translation.py:201-206 | the constraint values merged in; for a disjoint hierarchy `SqlConstraintValuesShape` states they are a single constraint, named after all the children joined, on the shared selector |
| HierarchyTranslation.HierarchyTranslator.AddConstraint | er_translator/translation/hierarchy_translation.py:209-214 | a known name's conditions are merged into it; a new name is appended |
| HierarchyTranslation.HierarchyTranslator.CreateSqlTotalConstraint | er_translator/translation/hierarchy_translation.py:216-219 | exactly one total constraint over the children, under the father |
| HierarchyTranslation.HierarchyTranslator.CreateSqlConstraintDownwards | er_translator/translation/hierarchy_translation.py:403-437 | exactly one downward constraint with one alternative per child (the corrected generator call; see Findings) |
| Sql.GeneratorCall | er_translator/translation/sql_generator.py:24-178 | calling an undefined generator raises AttributeError; a defined one goes through exactly when the argument count fits its signature |
| HierarchyTranslation.TriggerCallAsWritten | er_translator/translation/hierarchy_translation.py:178-183 | as written, the trigger call goes through exactly when there is no other child or the identifier modifier is empty, and raises TypeError otherwise |
| HierarchyTranslation.RecursiveTriggersAsWritten | er_translator/translation/hierarchy_translation.py:140-143 | as written, the triggers of a loop relationship on a child raise TypeError exactly when the loop is many-to-many |
| HierarchyTranslation.RecursiveTriggersApart | er_translator/translation/hierarchy_translation.py:140-143 | the two triggers of a many-to-many loop are equal except for the "_A" and "_B" modifiers, so they differ |
| HierarchyTranslation.DownwardsRelationshipAddsConstraint | er_translator/translation/hierarchy_translation.py:63-74 | a relationship's downward effects hand over a constraint exactly when it is not many-to-many and the father is `entity_from` when the from maximum is MANY, `entity_to` otherwise, so a one-to-one relationship into the father counts too |
| HierarchyTranslation.UndefinedDownwardsGenerator | er_translator/translation/hierarchy_translation.py:436 | the generator named at this line is not defined, so calling it raises AttributeError |
| HierarchyTranslation.CollapseDownwardsOutcome | er_translator/translation/hierarchy_translation.py:57-74 | the downward collapse goes through exactly when the generator accepts two arguments or no relationship needs a downward constraint; otherwise it fails with the generator's error |
| HierarchyTranslation.CollapseDownwardsFailsAsWritten | er_translator/translation/hierarchy_translation.py:57-74 | as written, the downward collapse raises AttributeError exactly when the model hands a downward constraint over, and goes through otherwise |
| HierarchyTranslation.CollapseDownwardsPasses | er_translator/translation/hierarchy_translation.py:57-74 | with the generator defined at sql_generator.py:167, the downward collapse never raises |
| HierarchyTranslation.HierarchyTranslator.OtherChildrenCheckList | er_translator/translation/hierarchy_translation.py:422-432 | the null checks on every other child, as `OtherChildrenChecksCover` states |
| HierarchyTranslation.HierarchyTranslator.ColumnCheckList | er_translator/translation/hierarchy_translation.py:411-413 | one check per identifier copy |
| HierarchyTranslation.HierarchyTranslator.RelationshipAttributeCheckList | er_translator/translation/hierarchy_translation.py:416-420 | the relationship attribute checks that `RelationshipAttributeChecksCover` states |
| HierarchyTranslation.HierarchyTranslator.CreateSqlTriggerDownwardsRelationship | er_translator/translation/hierarchy_translation.py:439-462 | one trigger per ordered pair of children between their relationship tables |
| HierarchyTranslation.HierarchyTranslator.CreateSqlTriggerDownwardsPairs | er_translator/translation/hierarchy_translation.py:445-462 | one trigger from the child to each other child; selectors and constraints stay |
| HierarchyTranslation.HierarchyTranslator.CreateSqlTriggerDownwardsChild | er_translator/translation/hierarchy_translation.py:464-477 | one trigger per ordered pair of children between their tables |
| HierarchyTranslation.HierarchyTranslator.RelationshipTableMatches | er_translator/translation/hierarchy_translation.py:454-456 | the matches of `DownwardsMatches` |
| HierarchyTranslation.HierarchyTranslator.ChildTableMatches | er_translator/translation/hierarchy_translation.py:472-474 | the matches of `ChildMatches` |
| HierarchyTranslation.HierarchyTranslator.CreateSqlTriggerDownwards | er_translator/translation/hierarchy_translation.py:480-482 | exactly one downward trigger appended; selectors and constraints stay |
| LegacyConceptual.ConvertCardinality | data/conceptual.py:9-17 | each of the three named texts gives its own value and every other text gives ONE_TO_MANY |
| LegacyConceptual.ConvertCardinalityName | data/conceptual.py:9-17 | reading back a value's name gives the value |
| LegacyConceptual.ConvertCompleteness | data/conceptual.py:24-28 | TOTAL exactly for "TOTAL" |
| LegacyConceptual.ConvertDisjointness | data/conceptual.py:34-38 | OVERLAPPING exactly for "OVERLAPPING" |
| LegacyRelational.Table.constructor | data/relational.py:2-6 | a new table keeps what it is given and has no foreign keys |
| LegacyRelational.Table.AddForeignKey | data/relational.py:8-9 | the key is appended to the foreign keys only |
| LegacyTranslation.TranslateAttribute | er_translation.py:6-10 | optional exactly when the minimum is zero; name, type and uniqueness carry over |
| LegacyTranslation.TranslateAll | er_translation.py:12-17 | one translated column per attribute, in order |
| LegacyTranslation.SecondKeys | er_translation.py:142-143 | one `<key>2` column per key, in order |
| LegacyTranslation.PairedKeys | er_translation.py:151-153 | every key followed by its `<key>2` twin |
| LegacyTranslation.GetCompositeAttributesChoices | er_translation.py:44-49 | the first composite of an entity is offered KEEP_COMPOSITE alone and later ones both; other entries unchanged |
| LegacyTranslation.ChoicesDependOnRecordingOrder | er_translation.py:44-49 | of two composites recorded in turn, the first is offered one choice and the second two |
| LegacyTranslation.Plain | er_translation.py:79 | the plain copy keeps every field and has no sub-attributes |
| LegacyTranslation.NormalizeCompositeAttribute | er_translation.py:72-84 | KEEP_COMPOSITE gives one plain attribute, KEEP_SIMPLE_ATTRIBUTES the sub-attributes, no choice nothing |
| LegacyTranslation.NewIdentifier | er_translation.py:92-93 | a unique, mandatory, single-valued `<name>_id` integer |
| LegacyTranslation.NormalizeMultiValueAttribute | er_translation.py:86-97 | an entity named owner ++ attribute, neither weak nor in a hierarchy, with one unique identifier (the attribute when unique, else `<name>_id` plus the attribute) |
| LegacyTranslation.NormalizeMultiValueAttributeAsWritten | er_translation.py:86-97 | the identifier slot gets a bare attribute, the attributes slot None, and the weak-entity slot a list that is non-empty for a non-unique attribute |
| LegacyTranslation.NormalizeAttribute | er_translation.py:51-69 | fails exactly for a multivalued composite with sub-attributes under KEEP_SIMPLE_ATTRIBUTES; the entity never changes |
| LegacyTranslation.PrimaryKeyOfDepth | er_translation.py:102-123 | any sufficient bound on the owner chain gives the same key |
| LegacyTranslation.TranslateEntity | er_translation.py:102-123 | a fresh table named after the entity, keyed by its identifiers then its owner's key, with its attributes and no foreign keys |
| LegacyTranslation.OneToOneTranslation | er_translation.py:200-228 | association table under RELATIONSHIP_TABLE; merge under MERGE_INTO_SINGLE_TABLE when a side is mandatory; else foreign keys |
| LegacyTranslation.TranslationOf | er_translation.py:162-196 | many-to-many always a table; one-to-many a table only under RELATIONSHIP_TABLE; one-to-one as above |
| LegacyTranslation.OneToOneMainIsFrom | er_translation.py:200-228 | the from side is main unless only the to side is mandatory |
| LegacyTranslation.MainIsFrom | er_translation.py:162-177 | the side with maximum one is main when exactly one maximum is many; from for many-to-many |
| LegacyTranslation.AddEachForeignKey | er_translation.py:13-14 | the keys are appended to the foreign keys, in order |
| LegacyTranslation.AddForeignKeysAndAttributes | er_translation.py:12-17 | the main table gains the referenced key as foreign keys, then the translated attributes |
| LegacyTranslation.MergeTablesIntoOne | er_translation.py:19-32 | a fresh table `<main><secondary>` with the main key, both tables' attributes then the relationship's, both foreign-key lists; neither table changes |
| LegacyTranslation.TranslateManyToManyRelationship | er_translation.py:180-190 | a fresh table keyed by both primary keys, all of them foreign keys, with the translated attributes |
| LegacyTranslation.TranslateOneToManyRelationship | er_translation.py:192-196 | an association table under RELATIONSHIP_TABLE, otherwise foreign keys on the one side and no table |
| LegacyTranslation.TranslateOneToOneRelationship | er_translation.py:200-228 | the storage of `OneToOneTranslation` around the main side of `OneToOneMainIsFrom` |
| LegacyTranslation.TranslateRelationship | er_translation.py:162-177 | a table is returned exactly when `TranslationOf` is not foreign keys, and it is the table that storage creates |
| LegacyTranslation.TranslateRelationshipAsWritten | er_translation.py:162-177 | a table is returned exactly for many-to-many, although the tables change as in the corrected version |
| LegacyTranslation.TranslateRecursiveRelationship | er_translation.py:139-160 | unequal maxima: `<key>2` foreign keys and no result; equal maxima: a fresh table of key pairs, all foreign keys, with the attributes |

## Left out

- Reading diagrams is not part of this model: the ERDPlus parser, the JSON parser, the command-line driver, the prompts that ask the user for choices, the diagram printer and the diagram generator. The translators receive the diagram and the choices as parameters.
- Rendering SQL text is left out. `sql_generator.py` fills text templates read from disk. The model records the arguments the translator means to give each generator (`Sql.Selector`, `Sql.SqlConstraint`, `Sql.Trigger`). It does not model the rendered text. In three places this differs from what the generator actually receives:
  - the seven-argument trigger call (first Findings row added for the hierarchy translator);
  - the call to a generator that does not exist (second such row);
  - the downward trigger (next line).
- HierarchyTranslation.HierarchyTranslator.CreateSqlTriggerDownwards: records the relationship name, the two tables and the column matches that the translator means to pass. As written, `_create_sql_trigger_downwards` (er_translator/translation/hierarchy_translation.py:480-481) passes them positionally to `create_sql_downwards_trigger(relationship_name, child_name, other_child_name, table_name, ...)` (sql_generator.py:178). So the generator reads the two tables as child names and the conditions text as its table name. The model does not reproduce that shift.
- Sql.Trigger.BeforeInsertTrigger carries the identifier modifier, which the generator never receives. The corrected call is listed under Findings.
- The draft's `get_relationship_choices` (er_translation.py:126-137) is left out. Apart from its table lookups it is the same as the later `get_relationship_choices`, which `ErTranslation.GetRelationshipChoices` models.
- Conceptual.AddSimpleAttribute: `CompositeAttribute.add_simple_attribute` updates in place. The model applies it to a value, so aliasing of a composite shared between lists is not captured.
- Python's dynamic typing is modelled with typed stand-ins:
  - a type object (`attribute_type`) is kept as its name;
  - in the draft, a weak-entity field that is falsy is the empty string, and any other owner is a name;
  - `None` arguments are `Option` values.
  - in the draft, a foreign key's referenced `Table` object is kept as the table's name (see the `LegacyRelational.ForeignKey` line below).
- The hierarchy translator imports `retrieve_children_names`, `retrieve_connected_relationships` and `get_all_father_entities` from `er_translator/utils/utils.py`. That file does not define them. `Utils.RetrieveConnectedRelationships` and `Utils.GetAllFatherEntities` give them the meaning their call sites need.
- The relationship helpers of `ERTranslator` take the choice as an explicit parameter. `translate_relationship` ignores the choice it is given, so `ErTranslation.ERTranslator.TranslateRelationship` runs the helpers with their defaults. The model does not decide what the ignored choice was meant to do.
- The package's translator reads `entity.identifier`, `entity.weak_entity` and `table.primary_key`. The package's data classes name these fields `identifiers`, `strong_entity` and `primary_keys`, and the model uses the data classes' names. The tables are a dictionary keyed by name.
- ErTranslation.ERTranslator.NormalizeMultiValueAttribute: `_normalize_multi_value_attribute` (er_translator/translation/er_translation.py:86-90) passes a type argument to `Attribute`, and passes an identifier and attributes to `Entity`. The package's constructors do not accept these arguments. The model builds the entity through `add_identifier` and `add_attribute`, with the identifier and attributes that those arguments evidently intend.
- ErTranslation.GetRelationshipChoices: the package's `get_relationship_choices` reads a `tables` name that it never defines (er_translator/translation/er_translation.py:130-131), so as written it raises NameError on every call. The model leaves out that lookup, whose result is unused.
- ErTranslation.GetRelationshipChoices and ErTranslation.GetCompositeAttributesChoices return the updated choices dictionary. The source changes the dictionary it is given in place.
- HierarchyCheckStore.HierarchyChecks.AddSelector / AddConstraint: `add_selector` and `add_constraint` take one argument (er_translator/data/hierachy_checks.py:19-23), but the translator calls them with the entity name as well (er_translator/translation/hierarchy_translation.py:40, 99, 219, 437). As written each of these calls raises TypeError. So every upward collapse fails at its first selector (:99), `translate_hierarchies` fails at the first constraint it emits (:40), and so does `_create_sql_total_constraint` (:219). The model takes the two-argument calls as intended: `HierarchyChecks` records the entity name beside the value, and these TypeErrors are not modelled.
- The draft's `Relationship` class has no attribute list, yet its translator reads `relationship.attributes`. `LegacyConceptual.Relationship` carries one.
- The draft's `Table` has no `add_attribute`. Attributes are appended to the table's list directly, as the later `add_attribute` does.
- The draft's translator compares `min_cardinality` and `max_cardinality`, which its four-valued `Cardinality` enumeration does not have. Draft attributes and relationships therefore carry the (minimum, maximum) pair of the later package.
- For a one-to-many relationship, the repository's design notes place the foreign key on the many side. The code adds it to the table whose maximum is one, and the model follows the code.
- The design notes also say that a multivalued composite kept as simple attributes leaves its owner. The code removes only each sub-attribute's name, and the model follows the code.
- During hierarchy translation the diagram is read but never changed. The methods' frames say so, and nothing in the model depends on entity contents changing.
- Selector and condition values are strings. The source gives the overlapping conditions the integers 1 and 0 (er_translator/translation/hierarchy_translation.py:327, 338, 353, 361) while their selector lists the strings "1" and "0" (line 95). The model writes both as "1" and "0", so it does not distinguish an integer condition value from a disjoint condition on a child named "1" or "0".
- The checks of the downward constraint follow the code. Only the generator call that hands the constraint over is corrected (see Findings). When a child has a sibling, its alternative requires each mandatory relationship attribute column to be both set and null (`HierarchyTranslation.DownwardsAlternativeChecks`), so that alternative never holds. The relationship attribute columns are shared by all children, and the model does not guess which of the two checks was meant.
- The dictionaries' insertion order is a separate key sequence beside each map. `HierarchyTranslation.HierarchyTranslator` requires it to list every key once, as a Python dictionary does.
- CheckRecursiveRelationshipChildCardinality (`HierarchyTranslation.HierarchyTranslator.CheckRecursiveRelationshipChildCardinality`) records two triggers for a many-to-many loop on a child. As written, the source raises TypeError there. `HierarchyTranslation.RecursiveTriggersAsWritten` states the as-written behaviour, and the Findings table has the row.
- CreateSqlTrigger (`HierarchyTranslation.HierarchyTranslator.CreateSqlTrigger`) promises a trigger for every call. As written, the source raises TypeError when there is another child and the identifier modifier is not empty. `HierarchyTranslation.TriggerCallAsWritten` states this, and the Findings table has the row.
- CreateSqlConstraintDownwards (`HierarchyTranslation.HierarchyTranslator.CreateSqlConstraintDownwards`) promises a downward constraint. As written, the source raises AttributeError on every call, because it names a generator that does not exist. `HierarchyTranslation.CollapseDownwardsFailsAsWritten` states this, and the Findings table has the row.
- HierarchyTranslation.HierarchyTranslator.TranslateHierarchies, `HierarchiesEffects`, `CollapseUpwards`, `CheckRelationship` and the upward effect functions: unresolved references are assumed away. They require every child a hierarchy names to be a known entity (`ChildrenKnown`, `AllKnown`), and every listed relationship's endpoints to be known (`Joined`). The source raises KeyError on an unresolved name (for example er_translator/translation/hierarchy_translation.py:44, 124-125), and the model does not carry that error.
  - `Joined` covers every relationship in the dictionary order. The source looks up only the relationships that touch a father or a child (lines 58-62, 101-106). So a dangling relationship elsewhere is accepted by the source and excluded by the model.
- ErTranslation.ERTranslator.NormalizeAttribute requires the entity to be known, and ErTranslation.ERTranslator.TranslateRelationship requires both endpoints to have tables. The source raises KeyError otherwise, and the model assumes the references resolve.
- LegacyTranslation.TranslateRelationship and LegacyTranslation.TranslateRelationshipAsWritten require both endpoints to have tables. The draft raises KeyError otherwise, and the model assumes the references resolve.
- LegacyRelational.ForeignKey: `tableRef` is the referenced table's name. The draft stores the referenced `Table` object (data/relational.py), so aliasing of the referenced table is not captured.
- TODO comments in the source that describe unimplemented intentions are not modelled.
- LegacyTranslation.TranslateEntity: the model states the key through the ghost function `PrimaryKeyOf` over a bounded owner chain. An owner cycle with no table, on which the source recurses without end, is excluded by the `Translatable` precondition. `Translatable` also requires every name on the owner chain to be a known entity: the draft raises KeyError for an unknown entity or owner (er_translation.py:100), and the model assumes the names resolve.
- ErTranslation.ERTranslator.TranslateEntity: the owner's table is read back after the owner is translated (the corrected behaviour). The owner chain is bounded by a ghost depth, and an owner cycle is excluded by `Translatable`. `Translatable` also requires every name on the owner chain that has no table yet to be a known entity: the source raises KeyError for an unknown entity or owner (er_translator/translation/er_translation.py:106), and the model assumes the names resolve.

## Findings

| source | as written | input that shows it | evidently intended | confidence | as-written member | corrected member |
|---|---|---|---|---|---|---|
| er_translator/translation/er_translation.py:111-118 | a weak entity whose owner has no table translates the owner by a recursive call whose result (None) is then dereferenced | a weak entity translated before its owner | translate the owner, then read its primary key from the new table | not executed | ErTranslation.ERTranslator.TranslateEntityAsWritten | ErTranslation.ERTranslator.TranslateEntity |
| er_translation.py:86-97 | the new entity is built with positional arguments `(name, identifier, attributes, None)`, so the attribute list fills the weak-entity slot | a non-unique multivalued attribute: the new entity gets a non-empty weak-entity list and no attributes | the fields in declared order: identifier list, no owner, the attribute list, no hierarchy | not executed | LegacyTranslation.NormalizeMultiValueAttributeAsWritten | LegacyTranslation.NormalizeMultiValueAttribute |
| er_translation.py:44-49 | the first composite recorded for an entity is offered KEEP_COMPOSITE alone; later ones are offered both | an entity with one composite attribute | both treatments for every composite attribute | not executed | LegacyTranslation.ChoicesDependOnRecordingOrder | ErTranslation.GetCompositeAttributesChoices |
| er_translation.py:162-177 | only the many-to-many branch returns the table its helper builds | a one-to-many relationship under RELATIONSHIP_TABLE: the association table is built and dropped | return the new table of every branch that builds one | not executed | LegacyTranslation.TranslateRelationshipAsWritten | LegacyTranslation.TranslateRelationship |
| er_translator/translation/hierarchy_translation.py:178-180 | with another child and a non-empty identifier modifier, `_create_sql_trigger` passes seven arguments to `create_sql_trigger_before_insert`, which accepts at most six (sql_generator.py:134) | a many-to-many relationship from a child to itself, collapsed upwards: TypeError (as written, the two-argument `add_selector` call at :99 already fails earlier in the same upward collapse; see the HierarchyCheckStore.HierarchyChecks line under Left out) | hand the modifier to the generator, so that the "_A" and "_B" triggers of the loop differ | not executed | HierarchyTranslation.RecursiveTriggersAsWritten | HierarchyTranslation.HierarchyTranslator.CheckRecursiveRelationshipChildCardinality |
| er_translator/translation/hierarchy_translation.py:436 | `_create_sql_constraint_downwards` calls `SQLGenerator.create_sql_downwards_constraint`, which is not defined; the generator defines `create_sql_constraint_downwards` (sql_generator.py:167) | a father collapsed downwards with a relationship that is not many-to-many and has the father as `entity_from` when the from maximum is MANY, or as `entity_to` otherwise (a one-to-one relationship into the father included): AttributeError | call `create_sql_constraint_downwards` with the relationship name and the alternatives | not executed | HierarchyTranslation.CollapseDownwardsFailsAsWritten | HierarchyTranslation.HierarchyTranslator.CreateSqlConstraintDownwards |
