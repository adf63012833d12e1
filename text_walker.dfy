/**
 * The scan as the validator runs it: recursive walkers that append into a
 * shared occurrence list, push and pop a shared property-path stack and add
 * to a shared namespace set. Each walker is proved to produce what the
 * functions of `TextScan` describe.
 */
module TextWalker {
  import opened Wrappers
  import opened SmithyModel
  import opened TextOccurrences
  import opened PropertyPaths
  import opened TextScan

  /** The `Collection<TextOccurrence>` the walkers append to. */
  class OccurrenceList {
    var items: seq<TextOccurrence>

    constructor ()
      ensures items == []
    {
      items := [];
    }

    method Add(o: TextOccurrence)
      modifies this
      ensures items == old(items) + [o]
    {
      items := items + [o];
    }
  }

  /** The `Set<String>` of namespaces the walkers record. */
  class NamespaceSet {
    var elements: set<string>

    constructor ()
      ensures elements == {}
    {
      elements := {};
    }

    method Add(namespace: string)
      modifies this
      ensures elements == old(elements) + {namespace}
    {
      elements := elements + {namespace};
    }
  }

  /**
   * Regrouping an appended sequence (and a set union, below). Stated once on
   * plain variables, it spares the walkers' loops from rediscovering it
   * through the unfolded scan functions, which is where most of their proof
   * effort went.
   */
  lemma ConcatAssociative<T>(a: seq<T>, b: seq<T>, c: seq<T>)
    ensures (a + b) + c == a + (b + c)
  {
  }

  lemma UnionAssociative<T>(a: set<T>, b: set<T>, c: set<T>)
    ensures (a + b) + c == a + (b + c)
  {
  }

  /** The `Stack<String>` property path; the top of the stack is the last segment. */
  class PathStack {
    var segments: seq<string>

    constructor ()
      ensures segments == []
    {
      segments := [];
    }

    method IsEmpty() returns (empty: bool)
      ensures empty <==> segments == []
    {
      empty := segments == [];
    }

    method Push(segment: string)
      modifies this
      ensures segments == old(segments) + [segment]
    {
      segments := segments + [segment];
    }

    /** Pops the top segment; `Stack.pop` throws on an empty stack, which the walkers never pop. */
    method Pop() returns (top: string)
      requires segments != []
      modifies this
      ensures segments == old(segments)[..|old(segments)| - 1]
      ensures top == old(segments)[|old(segments)| - 1]
    {
      top := segments[|segments| - 1];
      segments := segments[..|segments| - 1];
    }
  }

  /**
   * Builds a trait key or trait value occurrence through the builder, as
   * the walker does, copying the current path.
   */
  method BuildTraitOccurrence(locationType: TextLocationType, text: string, parent: Shape, t: Trait, path: PathStack)
    returns (o: TextOccurrence)
    requires IsTraitLocation(locationType)
    ensures o == TextOccurrence(locationType, text, Some(parent), Some(t), path.segments)
  {
    var builder := new Builder();
    builder.WithLocationType(Some(locationType));
    builder.WithShape(Some(parent));
    builder.WithTrait(Some(t));
    builder.WithTraitPropertyPath(Some(path.segments));
    builder.WithText(Some(text));
    var r := builder.Build();
    o := r.value;
  }

  /**
   * `getTextOccurrencesForTrait`: appends the occurrences of `node` at the
   * current path, records the trait's namespace, and leaves the path stack
   * as it found it.
   */
  method WalkTrait(node: Node, t: Trait, parent: Shape,
                   texts: OccurrenceList, path: PathStack, namespaces: NamespaceSet)
    modifies texts, path, namespaces
    ensures texts.items == old(texts.items) + TraitOccurrences(node, t, parent, old(path.segments))
    ensures path.segments == old(path.segments)
    ensures namespaces.elements == old(namespaces.elements) + {t.namespace}
    decreases node, 1
  {
    namespaces.Add(t.namespace);
    if t.IsReferences() {
      // the references trait names shapes the scan reaches anyway
    } else if node.StringNode? {
      var o := BuildTraitOccurrence(TraitValue, node.value, parent, t, path);
      texts.Add(o);
    } else if node.ObjectNode? {
      WalkEntries(node, t, parent, texts, path, namespaces);
    } else if node.ArrayNode? {
      WalkElements(node, t, parent, texts, path, namespaces);
    }
  }

  /**
   * The `forEach` over an object's entries: for each entry, pushes its key
   * segment, records the key, walks the value, and pops the segment.
   */
  method WalkEntries(node: Node, t: Trait, parent: Shape,
                     texts: OccurrenceList, path: PathStack, namespaces: NamespaceSet)
    requires node.ObjectNode? && t.namespace in namespaces.elements
    modifies texts, path, namespaces
    ensures texts.items == old(texts.items) + EntriesOccurrences(node, 0, t, parent, old(path.segments))
    ensures path.segments == old(path.segments)
    ensures namespaces.elements == old(namespaces.elements)
    decreases node, 0
  {
    var entries := node.entries;
    var i := 0;
    while i < |entries|
      invariant 0 <= i <= |entries|
      invariant path.segments == old(path.segments)
      invariant namespaces.elements == old(namespaces.elements)
      invariant texts.items + EntriesOccurrences(node, i, t, parent, path.segments)
             == old(texts.items) + EntriesOccurrences(node, 0, t, parent, path.segments)
    {
      var (key, value) := entries[i];
      ghost var before := texts.items;
      var atRoot := path.IsEmpty();
      path.Push(KeySegment(key, atRoot));
      ghost var extended := path.segments;
      var o := BuildTraitOccurrence(TraitKey, key, parent, t, path);
      texts.Add(o);
      WalkTrait(value, t, parent, texts, path, namespaces);
      var _ := path.Pop();
      ghost var rest := EntriesOccurrences(node, i + 1, t, parent, path.segments);
      ConcatAssociative(before + [o], TraitOccurrences(value, t, parent, extended), rest);
      ConcatAssociative(before, [o], TraitOccurrences(value, t, parent, extended) + rest);
      i := i + 1;
    }
  }

  /**
   * The `forEach` over an array's elements: element `index` is walked with
   * "[" + index + "]" pushed; the index counts up by one per element.
   */
  method WalkElements(node: Node, t: Trait, parent: Shape,
                      texts: OccurrenceList, path: PathStack, namespaces: NamespaceSet)
    requires node.ArrayNode? && t.namespace in namespaces.elements
    modifies texts, path, namespaces
    ensures texts.items == old(texts.items) + ElementsOccurrences(node, 0, t, parent, old(path.segments))
    ensures path.segments == old(path.segments)
    ensures namespaces.elements == old(namespaces.elements)
    decreases node, 0
  {
    var elements := node.elements;
    var index := 0;
    while index < |elements|
      invariant 0 <= index <= |elements|
      invariant path.segments == old(path.segments)
      invariant namespaces.elements == old(namespaces.elements)
      invariant texts.items + ElementsOccurrences(node, index, t, parent, path.segments)
             == old(texts.items) + ElementsOccurrences(node, 0, t, parent, path.segments)
    {
      path.Push(IndexSegment(index));
      WalkTrait(elements[index], t, parent, texts, path, namespaces);
      var _ := path.Pop();
      index := index + 1;
    }
  }

  /** `getAllTraits().values().forEach(...)`: walks each trait from a fresh, empty path stack. */
  method WalkTraits(traits: seq<Trait>, owner: Shape, texts: OccurrenceList, namespaces: NamespaceSet)
    modifies texts, namespaces
    ensures texts.items == old(texts.items) + TraitsOccurrences(traits, owner)
    ensures namespaces.elements == old(namespaces.elements) + TraitsNamespaces(traits)
  {
    var i := 0;
    while i < |traits|
      invariant 0 <= i <= |traits|
      invariant texts.items == old(texts.items) + TraitsOccurrences(traits[..i], owner)
      invariant namespaces.elements == old(namespaces.elements) + TraitsNamespaces(traits[..i])
    {
      var path := new PathStack();
      WalkTrait(traits[i].node, traits[i], owner, texts, path, namespaces);
      assert traits[..i + 1][..i] == traits[..i];
      ConcatAssociative(old(texts.items), TraitsOccurrences(traits[..i], owner), TraitOccurrences(traits[i].node, traits[i], owner, []));
      UnionAssociative(old(namespaces.elements), TraitsNamespaces(traits[..i]), {traits[i].namespace});
      i := i + 1;
    }
    assert traits[..i] == traits;
  }

  /** Builds the occurrence of a shape or member name through the builder. */
  method BuildNameOccurrence(shape: Shape, text: string) returns (o: TextOccurrence)
    ensures o == NameOccurrence(shape, text)
  {
    var builder := new Builder();
    builder.WithLocationType(Some(ShapeLocation));
    builder.WithShape(Some(shape));
    builder.WithText(Some(text));
    var r := builder.Build();
    o := r.value;
  }

  /** `shape.members().forEach(...)`: each member's name, then its traits. */
  method WalkMembers(members: seq<Shape>, texts: OccurrenceList, namespaces: NamespaceSet)
    modifies texts, namespaces
    ensures texts.items == old(texts.items) + MembersOccurrences(members)
    ensures namespaces.elements == old(namespaces.elements) + MembersNamespaces(members)
  {
    var i := 0;
    while i < |members|
      invariant 0 <= i <= |members|
      invariant texts.items == old(texts.items) + MembersOccurrences(members[..i])
      invariant namespaces.elements == old(namespaces.elements) + MembersNamespaces(members[..i])
    {
      var member := members[i];
      var o := BuildNameOccurrence(member, member.memberName);
      texts.Add(o);
      WalkTraits(member.traits, member, texts, namespaces);
      assert members[..i + 1][..i] == members[..i];
      ghost var done := MembersOccurrences(members[..i]);
      ConcatAssociative(old(texts.items), done, [o]);
      ConcatAssociative(old(texts.items), done + [o], TraitsOccurrences(member.traits, member));
      UnionAssociative(old(namespaces.elements), MembersNamespaces(members[..i]), TraitsNamespaces(member.traits));
      i := i + 1;
    }
    assert members[..i] == members;
  }

  /**
   * `getTextOccurrences`: records the shape's namespace and appends the
   * occurrences of its name, its members and its traits.
   */
  method WalkShape(shape: Shape, texts: OccurrenceList, namespaces: NamespaceSet)
    modifies texts, namespaces
    ensures texts.items == old(texts.items) + ShapeOccurrences(shape)
    ensures namespaces.elements == old(namespaces.elements) + ShapeNamespaces(shape)
  {
    namespaces.Add(shape.namespace);
    if shape.isMember {
      var o := BuildNameOccurrence(shape, shape.memberName);
      texts.Add(o);
    } else {
      var o := BuildNameOccurrence(shape, shape.name);
      texts.Add(o);
      WalkMembers(shape.members, texts, namespaces);
      ConcatAssociative(old(texts.items), [o], MembersOccurrences(shape.members));
    }
    ghost var named := if shape.isMember then [NameOccurrence(shape, shape.memberName)]
                       else [NameOccurrence(shape, shape.name)] + MembersOccurrences(shape.members);
    ghost var recorded := {shape.namespace} + (if shape.isMember then {} else MembersNamespaces(shape.members));
    assert texts.items == old(texts.items) + named;
    assert namespaces.elements == old(namespaces.elements) + recorded;
    WalkTraits(shape.traits, shape, texts, namespaces);
    ConcatAssociative(old(texts.items), named, TraitsOccurrences(shape.traits, shape));
    UnionAssociative(old(namespaces.elements), recorded, TraitsNamespaces(shape.traits));
  }
}
