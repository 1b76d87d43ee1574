/** The conceptual model of the earlier draft at the repository root
    (data/conceptual.py). Its classes only store what their constructors are
    given, so they are values here. Attributes and relationships carry the
    (minimum, maximum) cardinality pair that the draft's translator reads,
    and relationships carry the attribute list that it reads as well. */
module LegacyConceptual {
  import opened Wrappers
  import C = Conceptual

  /** The draft's four-valued cardinality enumeration. */
  datatype Cardinality = ZeroToOne | ZeroToMany | OneToOne | OneToMany

  /** The text each enumeration value is written as. */
  function CardinalityName(c: Cardinality): string
  {
    match c
    case ZeroToOne => "ZERO_TO_ONE"
    case ZeroToMany => "ZERO_TO_MANY"
    case OneToOne => "ONE_TO_ONE"
    case OneToMany => "ONE_TO_MANY"
  }

  /** `Cardinality.convert_cardinality`: the three named texts map to their
      own values; every other text, recognised or not, is ONE_TO_MANY. */
  function ConvertCardinality(text: string): (c: Cardinality)
    ensures c == ZeroToOne <==> text == "ZERO_TO_ONE"
    ensures c == ZeroToMany <==> text == "ZERO_TO_MANY"
    ensures c == OneToOne <==> text == "ONE_TO_ONE"
    ensures c == OneToMany <==> text != "ZERO_TO_ONE" && text != "ZERO_TO_MANY" && text != "ONE_TO_ONE"
  {
    if text == "ZERO_TO_ONE" then ZeroToOne
    else if text == "ZERO_TO_MANY" then ZeroToMany
    else if text == "ONE_TO_ONE" then OneToOne
    else OneToMany
  }

  /** Reading back the name of any value gives that value. */
  lemma ConvertCardinalityName(c: Cardinality)
    ensures ConvertCardinality(CardinalityName(c)) == c
  {
    match c
    case ZeroToOne =>
    case ZeroToMany =>
      assert "ZERO_TO_MANY" != "ZERO_TO_ONE" by { assert "ZERO_TO_MANY"[8] != "ZERO_TO_ONE"[8]; }
    case OneToOne =>
      assert "ONE_TO_ONE" != "ZERO_TO_ONE" by { assert "ONE_TO_ONE"[0] != "ZERO_TO_ONE"[0]; }
      assert "ONE_TO_ONE" != "ZERO_TO_MANY" by { assert "ONE_TO_ONE"[0] != "ZERO_TO_MANY"[0]; }
    case OneToMany =>
      assert "ONE_TO_MANY" != "ZERO_TO_ONE" by { assert "ONE_TO_MANY"[0] != "ZERO_TO_ONE"[0]; }
      assert "ONE_TO_MANY" != "ZERO_TO_MANY" by { assert "ONE_TO_MANY"[0] != "ZERO_TO_MANY"[0]; }
      assert "ONE_TO_MANY" != "ONE_TO_ONE" by { assert "ONE_TO_MANY"[7] != "ONE_TO_ONE"[7]; }
  }

  /** `HierarchyCompleteness.convert_completeness`: TOTAL exactly for the
      text "TOTAL", PARTIAL for everything else. */
  function ConvertCompleteness(text: string): (c: C.Completeness)
    ensures c == C.Total <==> text == "TOTAL"
    ensures c == C.Partial <==> text != "TOTAL"
  {
    if text == "TOTAL" then C.Total else C.Partial
  }

  /** `HierarchyDisjointness.convert_disjointness`: OVERLAPPING exactly for
      the text "OVERLAPPING", DISJOINT for everything else. */
  function ConvertDisjointness(text: string): (d: C.Disjointness)
    ensures d == C.Overlapping <==> text == "OVERLAPPING"
    ensures d == C.Disjoint <==> text != "OVERLAPPING"
  {
    if text == "OVERLAPPING" then C.Overlapping else C.Disjoint
  }

  /** An attribute with its declared type (kept as the type's name). A
      composite attribute also stores its sub-attributes. */
  datatype Attribute =
    | Attribute(name: string, cardinality: C.Cardinality, attributeType: string, isUnique: bool)
    | CompositeAttribute(name: string, cardinality: C.Cardinality, attributeType: string, isUnique: bool,
                         simpleAttributes: seq<Attribute>)

  datatype Hierarchy = Hierarchy(children: seq<string>, completeness: C.Completeness, disjointness: C.Disjointness)

  /** An entity. `weakEntity` names the owner of a weak entity; the empty
      text stands for every value the draft treats as false (no owner). */
  datatype Entity = Entity(name: string, identifier: seq<Attribute>, weakEntity: string,
                           attributes: seq<Attribute>, hierarchy: Option<Hierarchy>)

  datatype Relationship = Relationship(name: string, entityFrom: string, entityTo: string,
                                       cardinalityFrom: C.Cardinality, cardinalityTo: C.Cardinality,
                                       attributes: seq<Attribute>)
}
