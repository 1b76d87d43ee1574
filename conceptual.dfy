/** The conceptual (entity-relationship) data model of the translator
    (er_translator/data/conceptual.py). Cardinalities, attributes and the
    enumerations are values; entities, hierarchies and relationships are
    objects whose list fields the source appends to in place. */
module Conceptual {
  import opened Wrappers

  datatype MinimumCardinality = MinZero | MinOne

  datatype MaximumCardinality = MaxOne | MaxMany

  datatype Completeness = Total | Partial

  datatype Disjointness = Overlapping | Disjoint

  datatype Cardinality = Cardinality(min: MinimumCardinality, max: MaximumCardinality)

  /** Reads the textual minimum and maximum of a diagram: only "Optional" is a
      zero minimum and only "One" a single maximum. */
  function ConvertCardinality(minText: string, maxText: string): (c: Cardinality)
    ensures c.min == MinZero <==> minText == "Optional"
    ensures c.max == MaxOne <==> maxText == "One"
  {
    Cardinality(if minText == "Optional" then MinZero else MinOne,
                if maxText == "One" then MaxOne else MaxMany)
  }

  /** An attribute is simple or composite; the sub-attributes of a composite
      are simple by contract of the caller (one level of nesting). */
  datatype Attribute =
    | Attribute(name: string, cardinality: Cardinality, isUnique: bool)
    | CompositeAttribute(name: string, cardinality: Cardinality, isUnique: bool,
                         simpleAttributes: seq<Attribute>)

  /** `Attribute(a.name, a.cardinality, a.is_unique)`: the plain attribute that
      keeps a's name, cardinality and uniqueness and drops its sub-attributes. */
  function Plain(a: Attribute): (p: Attribute)
    ensures p.Attribute?
    ensures p.name == a.name && p.cardinality == a.cardinality && p.isUnique == a.isUnique
    ensures a.Attribute? ==> p == a
  {
    Attribute(a.name, a.cardinality, a.isUnique)
  }

  /** A freshly constructed composite attribute has no sub-attributes. */
  function NewCompositeAttribute(name: string, cardinality: Cardinality, isUnique: bool): (a: Attribute)
    ensures a.CompositeAttribute? && a.simpleAttributes == []
    ensures a.name == name && a.cardinality == cardinality && a.isUnique == isUnique
  {
    CompositeAttribute(name, cardinality, isUnique, [])
  }

  /** `CompositeAttribute.add_simple_attribute`, on values: the sub-attribute is
      appended and nothing else changes. */
  function AddSimpleAttribute(a: Attribute, simple: Attribute): (r: Attribute)
    requires a.CompositeAttribute?
    ensures r.CompositeAttribute? && r.simpleAttributes == a.simpleAttributes + [simple]
    ensures r.name == a.name && r.cardinality == a.cardinality && r.isUnique == a.isUnique
  {
    a.(simpleAttributes := a.simpleAttributes + [simple])
  }

  /** The names of a list of attributes, in order. */
  function Names(attributes: seq<Attribute>): (names: seq<string>)
    ensures |names| == |attributes|
    ensures forall k :: 0 <= k < |attributes| ==> names[k] == attributes[k].name
  {
    if attributes == [] then [] else Names(attributes[..|attributes| - 1]) + [attributes[|attributes| - 1].name]
  }

  /** The position of the first attribute called `name`, if there is one. */
  function IndexOfName(attributes: seq<Attribute>, name: string): (r: Option<nat>)
    ensures r.None? <==> forall k :: 0 <= k < |attributes| ==> attributes[k].name != name
    ensures r.Some? ==> r.value < |attributes| && attributes[r.value].name == name
    ensures r.Some? ==> forall k :: 0 <= k < r.value ==> attributes[k].name != name
  {
    if attributes == [] then None
    else if attributes[0].name == name then Some(0)
    else match IndexOfName(attributes[1..], name)
      case None => None
      case Some(i) => Some(i + 1)
  }

  /** The list without its first attribute called `name`. */
  function RemoveNamed(attributes: seq<Attribute>, name: string): seq<Attribute>
  {
    if attributes == [] then []
    else if attributes[0].name == name then attributes[1..]
    else [attributes[0]] + RemoveNamed(attributes[1..], name)
  }

  /** Removing by name is a no-op when the name is absent and otherwise drops
      exactly the first attribute with that name, keeping the others in order. */
  lemma {:induction false} RemoveNamedSpec(attributes: seq<Attribute>, name: string)
    ensures IndexOfName(attributes, name).None? ==> RemoveNamed(attributes, name) == attributes
    ensures IndexOfName(attributes, name).Some? ==>
      var i := IndexOfName(attributes, name).value;
      RemoveNamed(attributes, name) == attributes[..i] + attributes[i + 1..]
  {
    if attributes != [] && attributes[0].name != name {
      var tail := attributes[1..];
      RemoveNamedSpec(tail, name);
      assert RemoveNamed(attributes, name) == [attributes[0]] + RemoveNamed(tail, name);
      match IndexOfName(tail, name)
      case None =>
      case Some(i) =>
        assert IndexOfName(attributes, name) == Some(i + 1);
        assert attributes == [attributes[0]] + tail;
        ConsSplice(attributes[0], tail, i);
    }
  }

  /** Dropping the element after position `i` of a list commutes with
      putting an element in front. */
  lemma ConsSplice<T>(x: T, tail: seq<T>, i: nat)
    requires i < |tail|
    ensures [x] + (tail[..i] + tail[i + 1..]) == ([x] + tail)[..i + 1] + ([x] + tail)[i + 2..]
  {
    assert ([x] + tail)[..i + 1] == [x] + tail[..i];
    assert ([x] + tail)[i + 2..] == tail[i + 1..];
  }

  datatype Error = NoHierarchy

  class Hierarchy {
    var children: seq<string>
    const completeness: Completeness
    const disjointness: Disjointness

    constructor (completeness: Completeness, disjointness: Disjointness)
      ensures children == []
      ensures this.completeness == completeness && this.disjointness == disjointness
    {
      children := [];
      this.completeness := completeness;
      this.disjointness := disjointness;
    }

    method AddChild(child: string)
      modifies this
      ensures children == old(children) + [child]
    {
      children := children + [child];
    }
  }

  class Entity {
    const name: string
    var identifiers: seq<Attribute>
    var strongEntity: Option<string>
    var attributes: seq<Attribute>
    var hierarchy: Hierarchy?

    /** A new entity has no identifiers, no attributes, no owning strong
        entity and no hierarchy. */
    constructor (name: string)
      ensures this.name == name
      ensures identifiers == [] && attributes == []
      ensures strongEntity == None && hierarchy == null
    {
      this.name := name;
      identifiers := [];
      strongEntity := None;
      attributes := [];
      hierarchy := null;
    }

    method AddIdentifier(identifier: Attribute)
      modifies this
      ensures identifiers == old(identifiers) + [identifier]
      ensures attributes == old(attributes)
      ensures strongEntity == old(strongEntity) && hierarchy == old(hierarchy)
    {
      identifiers := identifiers + [identifier];
    }

    method AddAttribute(attribute: Attribute)
      modifies this
      ensures attributes == old(attributes) + [attribute]
      ensures identifiers == old(identifiers)
      ensures strongEntity == old(strongEntity) && hierarchy == old(hierarchy)
    {
      attributes := attributes + [attribute];
    }

    method SetStrongEntity(strong: string)
      modifies this
      ensures strongEntity == Some(strong)
      ensures identifiers == old(identifiers) && attributes == old(attributes)
      ensures hierarchy == old(hierarchy)
    {
      strongEntity := Some(strong);
    }

    method SetHierarchy(h: Hierarchy)
      modifies this
      ensures hierarchy == h
      ensures identifiers == old(identifiers) && attributes == old(attributes)
      ensures strongEntity == old(strongEntity)
    {
      hierarchy := h;
    }

    /** Appends a child to the entity's hierarchy, or fails with
        NoHierarchy (the source raises NoHierarchyExcpetion) when the entity
        has none. */
    method AddChild(child: string) returns (outcome: Outcome<Error>)
      modifies hierarchy
      ensures outcome == if hierarchy == null then Fail(NoHierarchy) else Pass
      ensures hierarchy != null ==> hierarchy.children == old(hierarchy.children) + [child]
      ensures unchanged(this)
    {
      if hierarchy != null {
        hierarchy.AddChild(child);
        outcome := Pass;
      } else {
        outcome := Fail(NoHierarchy);
      }
    }

    /** Removes the first attribute called `attributeName`; the identifiers
        are never touched. */
    method RemoveAttribute(attributeName: string)
      modifies this
      ensures attributes == RemoveNamed(old(attributes), attributeName)
      ensures identifiers == old(identifiers)
      ensures strongEntity == old(strongEntity) && hierarchy == old(hierarchy)
    {
      RemoveNamedSpec(attributes, attributeName);
      var i := 0;
      while i < |attributes|
        invariant 0 <= i <= |attributes|
        invariant forall k :: 0 <= k < i ==> attributes[k].name != attributeName
      {
        if attributes[i].name == attributeName {
          attributes := attributes[..i] + attributes[i + 1..];
          return;
        }
        i := i + 1;
      }
    }
  }

  class Relationship {
    const name: string
    const entityFrom: string
    const entityTo: string
    const cardinalityFrom: Cardinality
    const cardinalityTo: Cardinality
    var attributes: seq<Attribute>

    constructor (name: string, entityFrom: string, entityTo: string,
                 cardinalityFrom: Cardinality, cardinalityTo: Cardinality)
      ensures this.name == name && this.entityFrom == entityFrom && this.entityTo == entityTo
      ensures this.cardinalityFrom == cardinalityFrom && this.cardinalityTo == cardinalityTo
      ensures attributes == []
    {
      this.name := name;
      this.entityFrom := entityFrom;
      this.entityTo := entityTo;
      this.cardinalityFrom := cardinalityFrom;
      this.cardinalityTo := cardinalityTo;
      attributes := [];
    }

    method AddAttribute(attribute: Attribute)
      modifies this
      ensures attributes == old(attributes) + [attribute]
    {
      attributes := attributes + [attribute];
    }
  }
}
