/** The three choice enumerations offered to the user during translation
    (er_translator/data/choices.py). */
module Choices {

  datatype CompositeAttributeChoice = KeepComposite | KeepSimpleAttributes

  datatype RelationshipChoice = RelationshipTable | MergeIntoSingleTable | AddForeignKey

  datatype HierarchyChoice = CollapseUpwards | CollapseDownwards

  /** Both ways of treating a composite attribute. */
  const BothCompositeChoices: set<CompositeAttributeChoice> := {KeepComposite, KeepSimpleAttributes}
}
