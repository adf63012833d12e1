/**
 * What the full-text scan produces, as pure functions: the occurrences a
 * trait value yields (`getTextOccurrencesForTrait`), the occurrences a shape
 * yields (`getTextOccurrences`), the namespaces each collects, and the
 * properties of those sequences.
 */
module TextScan {
  import opened Wrappers
  import opened SmithyModel
  import opened TextOccurrences
  import opened PropertyPaths

  // ---------------------------------------------------------------------
  // Trait values
  // ---------------------------------------------------------------------

  /**
   * The occurrences found in `node`, part of the value of trait `t` on
   * shape `parent`, when the walker's path stack holds `path`. The
   * references trait yields nothing; a string yields one trait value; an
   * object yields, per entry, its key and then its value's occurrences; an
   * array yields its elements' occurrences; other nodes yield nothing.
   */
  function TraitOccurrences(node: Node, t: Trait, parent: Shape, path: seq<string>): seq<TextOccurrence>
    decreases node, 1, 0
  {
    if t.IsReferences() then []
    else match node
      case StringNode(value) => [TextOccurrence(TraitValue, value, Some(parent), Some(t), path)]
      case ObjectNode(_) => EntriesOccurrences(node, 0, t, parent, path)
      case ArrayNode(_) => ElementsOccurrences(node, 0, t, parent, path)
      case OtherNode => []
  }

  /** The occurrences of the entries of object `node` from the `i`-th on. */
  function EntriesOccurrences(node: Node, i: nat, t: Trait, parent: Shape, path: seq<string>): seq<TextOccurrence>
    requires node.ObjectNode? && i <= |node.entries|
    decreases node, 0, |node.entries| - i
  {
    if i == |node.entries| then []
    else
      var extended := path + [KeySegment(node.entries[i].0, path == [])];
      [TextOccurrence(TraitKey, node.entries[i].0, Some(parent), Some(t), extended)]
        + TraitOccurrences(node.entries[i].1, t, parent, extended)
        + EntriesOccurrences(node, i + 1, t, parent, path)
  }

  /** The occurrences of the elements of array `node` from the `i`-th on. */
  function ElementsOccurrences(node: Node, i: nat, t: Trait, parent: Shape, path: seq<string>): seq<TextOccurrence>
    requires node.ArrayNode? && i <= |node.elements|
    decreases node, 0, |node.elements| - i
  {
    if i == |node.elements| then []
    else
      TraitOccurrences(node.elements[i], t, parent, path + [IndexSegment(i)])
        + ElementsOccurrences(node, i + 1, t, parent, path)
  }

  // ---------------------------------------------------------------------
  // Shapes
  // ---------------------------------------------------------------------

  /** The occurrence of a shape or member name. */
  function NameOccurrence(shape: Shape, text: string): TextOccurrence
  {
    TextOccurrence(ShapeLocation, text, Some(shape), None, [])
  }

  /** The occurrences of `traits` applied to `owner`, each walked from an empty path. */
  function TraitsOccurrences(traits: seq<Trait>, owner: Shape): seq<TextOccurrence>
    decreases |traits|
  {
    if traits == [] then []
    else
      var t := traits[|traits| - 1];
      TraitsOccurrences(traits[..|traits| - 1], owner) + TraitOccurrences(t.node, t, owner, [])
  }

  /** The namespaces of `traits`: every trait walk records its trait's namespace. */
  function TraitsNamespaces(traits: seq<Trait>): set<string>
    decreases |traits|
  {
    if traits == [] then {}
    else TraitsNamespaces(traits[..|traits| - 1]) + {traits[|traits| - 1].namespace}
  }

  /** For each member of an aggregate shape: its member name, then its traits' occurrences. */
  function MembersOccurrences(members: seq<Shape>): seq<TextOccurrence>
    decreases |members|
  {
    if members == [] then []
    else
      var m := members[|members| - 1];
      MembersOccurrences(members[..|members| - 1])
        + [NameOccurrence(m, m.memberName)] + TraitsOccurrences(m.traits, m)
  }

  /** The namespaces the members' trait walks record. */
  function MembersNamespaces(members: seq<Shape>): set<string>
    decreases |members|
  {
    if members == [] then {}
    else MembersNamespaces(members[..|members| - 1]) + TraitsNamespaces(members[|members| - 1].traits)
  }

  /**
   * The occurrences of one shape: a member shape's member name, or an
   * aggregate shape's name followed by its members; then the shape's own
   * traits.
   */
  function ShapeOccurrences(shape: Shape): seq<TextOccurrence>
  {
    (if shape.isMember then [NameOccurrence(shape, shape.memberName)]
     else [NameOccurrence(shape, shape.name)] + MembersOccurrences(shape.members))
      + TraitsOccurrences(shape.traits, shape)
  }

  /** The namespaces recorded while walking `shape`: its own, and those of every trait walked. */
  function ShapeNamespaces(shape: Shape): set<string>
  {
    {shape.namespace}
      + (if shape.isMember then {} else MembersNamespaces(shape.members))
      + TraitsNamespaces(shape.traits)
  }

  /** The structural scan of a model's shapes, in the order the model lists them. */
  function ShapesOccurrences(shapes: seq<Shape>): seq<TextOccurrence>
    decreases |shapes|
  {
    if shapes == [] then []
    else ShapesOccurrences(shapes[..|shapes| - 1]) + ShapeOccurrences(shapes[|shapes| - 1])
  }

  function ShapesNamespaces(shapes: seq<Shape>): set<string>
    decreases |shapes|
  {
    if shapes == [] then {}
    else ShapesNamespaces(shapes[..|shapes| - 1]) + ShapeNamespaces(shapes[|shapes| - 1])
  }
}
