/** The SQL fragments of er_translator/translation/sql_generator.py, kept as
    values that record the arguments the translator means to give each
    generator. The source renders them through text templates read from
    disk; the model keeps the structure the templates are filled from. */
module Sql {
  import opened Wrappers
  import opened Constraints

  /** `create_sql_selector`: a type column and its admissible values. */
  datatype Selector = Selector(name: string, values: seq<string>)

  /** A column equality `N.<newColumn> = <otherTable>.<otherColumn>` tested by
      a downward trigger. */
  datatype ColumnMatch = ColumnMatch(newColumn: string, otherTable: string, otherColumn: string)

  datatype SqlConstraint =
      /** `create_sql_constraint`: a merged hierarchy constraint. */
    | HierarchyConstraint(constraint: ConstraintValue)
      /** `create_sql_total_constraint`: at least one child selector is set. */
    | TotalConstraint(childrenNames: seq<string>)
      /** The constraint built by `_create_sql_constraint_downwards`: one
          alternative (a conjunction of checks) per child. */
    | DownwardsConstraint(relationshipName: string, alternatives: seq<seq<Check>>)

  datatype Trigger =
      /** `create_sql_trigger_before_insert`, with the names of the
          relationship, father and children it is given. */
    | BeforeInsertTrigger(relationshipName: string, tableName: string, fatherName: string,
                          connectedChild: string, selectorName: string,
                          otherChild: Option<string>, identifierModifier: string)
      /** The trigger `_create_sql_trigger_downwards` asks for: the tables
          it relates and the disjunction of column matches it tests. */
    | DownwardsTrigger(relationshipName: string, tableName: string, otherTableName: string,
                       matches: seq<ColumnMatch>)

  /** The two errors Python raises when a static function of `SQLGenerator`
      is called: one that the class does not define, or one given a number
      of positional arguments its signature does not accept. */
  datatype CallError = AttributeError | TypeError

  /** The static functions `SQLGenerator` defines (sql_generator.py:24-178),
      each with the fewest and the most positional arguments it accepts. */
  function GeneratorArity(name: string): Option<(nat, nat)>
  {
    if name == "create_sql_table" then Some((6, 6))
    else if name == "create_sql_attribute" then Some((1, 1))
    else if name == "create_sql_reference" then Some((3, 3))
    else if name == "create_sql_selector" then Some((2, 2))
    else if name == "create_sql_constraint" then Some((1, 1))
    else if name == "create_sql_total_constraint" then Some((1, 1))
    else if name == "create_sql_trigger_before_insert" then Some((5, 6))
    else if name == "create_sql_constraint_downwards" then Some((2, 2))
    else if name == "create_sql_downwards_trigger" then Some((3, 5))
    else None
  }

  /** Calling the generator `name` with `count` positional arguments: an
      undefined name raises AttributeError, a count outside the signature
      raises TypeError, and anything else goes through. */
  function GeneratorCall(name: string, count: nat): (r: Outcome<CallError>)
    ensures r == Fail(AttributeError) <==> GeneratorArity(name).None?
    ensures r == Pass <==>
      GeneratorArity(name).Some? && GeneratorArity(name).value.0 <= count <= GeneratorArity(name).value.1
  {
    match GeneratorArity(name)
    case None => Fail(AttributeError)
    case Some((least, most)) => if least <= count <= most then Pass else Fail(TypeError)
  }
}
