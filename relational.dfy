/** The relational output model (er_translator/data/relational.py): a table
    keeps its primary keys, and the translator appends foreign keys and
    attributes to it in place. */
module Relational {

  /** A column. `ForeignKey` extends a plain attribute with the referenced
      table (recorded by its name) and the referenced primary-key column. */
  datatype Attribute =
    | Attribute(name: string, isOptional: bool, isUnique: bool)
    | ForeignKey(name: string, isOptional: bool, isUnique: bool,
                 tableRef: string, primaryKeyRef: Attribute)

  class Table {
    const name: string
    const primaryKeys: seq<Attribute>
    var foreignKeys: seq<Attribute>
    var attributes: seq<Attribute>

    /** A new table stores what it is given and has no foreign keys. */
    constructor (name: string, primaryKeys: seq<Attribute>, attributes: seq<Attribute>)
      ensures this.name == name && this.primaryKeys == primaryKeys
      ensures this.attributes == attributes && foreignKeys == []
    {
      this.name := name;
      this.primaryKeys := primaryKeys;
      foreignKeys := [];
      this.attributes := attributes;
    }

    method AddForeignKey(foreignKey: Attribute)
      modifies this
      ensures foreignKeys == old(foreignKeys) + [foreignKey]
      ensures attributes == old(attributes)
    {
      foreignKeys := foreignKeys + [foreignKey];
    }

    method AddAttribute(attribute: Attribute)
      modifies this
      ensures attributes == old(attributes) + [attribute]
      ensures foreignKeys == old(foreignKeys)
    {
      attributes := attributes + [attribute];
    }
  }
}
