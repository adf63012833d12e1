/**
 * The parts of a Smithy model that the full-text scan reads: trait values
 * as generic nodes, traits, shapes with their members, and the model as a
 * list of shapes. Only what the scan observes is kept.
 */
module SmithyModel {

  /**
   * A trait value or any part nested inside it. The scan tells apart
   * strings, objects (ordered key/value entries) and arrays; every other
   * node kind (boolean, number, null) is `OtherNode`.
   */
  datatype Node =
    | StringNode(value: string)
    | ObjectNode(entries: seq<(string, Node)>)
    | ArrayNode(elements: seq<Node>)
    | OtherNode

  /** A trait applied to a shape: its shape id (namespace and name) and its value as a node (`toNode`). */
  datatype Trait = Trait(namespace: string, name: string, node: Node)
  {
    /** True of the `smithy.api#references` trait, whose id the scan compares against. */
    predicate IsReferences()
    {
      namespace == "smithy.api" && name == "references"
    }
  }

  /**
   * A shape: the namespace and name of its id, whether it is a member
   * shape and, if so, its member name, its member shapes (for an aggregate
   * shape) and the traits applied to it, in the order the model lists them.
   */
  datatype Shape = Shape(
    namespace: string,
    name: string,
    isMember: bool,
    memberName: string,
    members: seq<Shape>,
    traits: seq<Trait>)

  /** A model, as the sequence of shapes it enumerates. */
  datatype Model = Model(shapes: seq<Shape>)

  /**
   * Every object inside `node` has pairwise distinct keys, as a Smithy
   * object node (a map from string keys to nodes) always has.
   */
  predicate UniqueKeys(node: Node)
    decreases node
  {
    match node
    case ObjectNode(entries) =>
      (forall i, j :: 0 <= i < j < |entries| ==> entries[i].0 != entries[j].0) &&
      (forall i :: 0 <= i < |entries| ==> UniqueKeys(entries[i].1))
    case ArrayNode(elements) =>
      forall i :: 0 <= i < |elements| ==> UniqueKeys(elements[i])
    case _ => true
  }
}
