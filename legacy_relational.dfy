/** The relational model of the earlier draft (data/relational.py): tables
    whose foreign-key list grows in place, and columns that remember their
    declared type. */
module LegacyRelational {

  /** A column. `ForeignKey` adds the referenced table (by name) and the
      referenced primary-key column to the plain attribute's fields. */
  datatype Attribute =
    | Attribute(name: string, attributeType: string, isOptional: bool, isUnique: bool)
    | ForeignKey(name: string, attributeType: string, isOptional: bool, isUnique: bool,
                 tableRef: string, primaryKeyRef: Attribute)

  class Table {
    const name: string
    const primaryKey: seq<Attribute>
    var foreignKey: seq<Attribute>
    var attributes: seq<Attribute>

    /** A new table stores its name, primary key and attributes as given and
        has no foreign keys. */
    constructor (name: string, primaryKey: seq<Attribute>, attributes: seq<Attribute>)
      ensures this.name == name && this.primaryKey == primaryKey
      ensures this.attributes == attributes && foreignKey == []
    {
      this.name := name;
      this.primaryKey := primaryKey;
      foreignKey := [];
      this.attributes := attributes;
    }

    /** `add_foreign_key`: appends to the foreign keys only. */
    method AddForeignKey(key: Attribute)
      modifies this
      ensures foreignKey == old(foreignKey) + [key]
      ensures attributes == old(attributes)
    {
      foreignKey := foreignKey + [key];
    }
  }
}
