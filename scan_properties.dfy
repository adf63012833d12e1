/**
 * Properties of the scan's output: which texts a trait value yields and in
 * what order, where each reported property path leads, and what the shape
 * walker yields.
 */
module ScanProperties {
  import opened Wrappers
  import opened SmithyModel
  import opened TextOccurrences
  import opened PropertyPaths
  import opened TextScan

  // ---------------------------------------------------------------------
  // Texts by location kind
  // ---------------------------------------------------------------------

  /** The texts of the occurrences of kind `kind`, in order. */
  function TextsOf(kind: TextLocationType, occurrences: seq<TextOccurrence>): seq<string>
    decreases |occurrences|
  {
    if occurrences == [] then []
    else
      (if occurrences[0].locationType == kind then [occurrences[0].text] else [])
        + TextsOf(kind, occurrences[1..])
  }

  lemma {:induction false} TextsOfAppend(kind: TextLocationType, a: seq<TextOccurrence>, b: seq<TextOccurrence>)
    ensures TextsOf(kind, a + b) == TextsOf(kind, a) + TextsOf(kind, b)
    decreases |a|
  {
    if a == [] {
      assert a + b == b;
    } else {
      assert (a + b)[1..] == a[1..] + b;
      TextsOfAppend(kind, a[1..], b);
    }
  }

  lemma {:induction false} TextsOfNone(kind: TextLocationType, occurrences: seq<TextOccurrence>)
    requires forall k :: 0 <= k < |occurrences| ==> occurrences[k].locationType != kind
    ensures TextsOf(kind, occurrences) == []
    decreases |occurrences|
  {
    if occurrences != [] {
      TextsOfNone(kind, occurrences[1..]);
    }
  }

  /**
   * The texts a JSON-like value holds, in document order: with `TraitKey`
   * every object key at every depth, with `TraitValue` every string, with
   * any other kind nothing.
   */
  function NodeTexts(node: Node, kind: TextLocationType): seq<string>
    decreases node, 1, 0
  {
    match node
    case StringNode(value) => if kind == TraitValue then [value] else []
    case ObjectNode(_) => EntryTexts(node, 0, kind)
    case ArrayNode(_) => ElementTexts(node, 0, kind)
    case OtherNode => []
  }

  function EntryTexts(node: Node, i: nat, kind: TextLocationType): seq<string>
    requires node.ObjectNode? && i <= |node.entries|
    decreases node, 0, |node.entries| - i
  {
    if i == |node.entries| then []
    else
      (if kind == TraitKey then [node.entries[i].0] else [])
        + NodeTexts(node.entries[i].1, kind) + EntryTexts(node, i + 1, kind)
  }

  function ElementTexts(node: Node, i: nat, kind: TextLocationType): seq<string>
    requires node.ArrayNode? && i <= |node.elements|
    decreases node, 0, |node.elements| - i
  {
    if i == |node.elements| then []
    else NodeTexts(node.elements[i], kind) + ElementTexts(node, i + 1, kind)
  }

  /**
   * Walking a trait value (other than the references trait's) reports each
   * key once as a trait key and each string once as a trait value, in
   * document order, and nothing else: as many trait keys as the value has
   * object entries at every depth.
   */
  lemma {:induction false} TraitTexts(node: Node, t: Trait, parent: Shape, path: seq<string>, kind: TextLocationType)
    requires !t.IsReferences()
    ensures TextsOf(kind, TraitOccurrences(node, t, parent, path)) == NodeTexts(node, kind)
    decreases node, 1, 0
  {
    match node
    case StringNode(_) =>
    case ObjectNode(_) => EntriesTexts(node, 0, t, parent, path, kind);
    case ArrayNode(_) => ElementsTexts(node, 0, t, parent, path, kind);
    case OtherNode =>
  }

  lemma {:induction false} EntriesTexts(node: Node, i: nat, t: Trait, parent: Shape, path: seq<string>, kind: TextLocationType)
    requires node.ObjectNode? && i <= |node.entries|
    requires !t.IsReferences()
    ensures TextsOf(kind, EntriesOccurrences(node, i, t, parent, path)) == EntryTexts(node, i, kind)
    decreases node, 0, |node.entries| - i
  {
    if i < |node.entries| {
      var extended := path + [KeySegment(node.entries[i].0, path == [])];
      var key := [TextOccurrence(TraitKey, node.entries[i].0, Some(parent), Some(t), extended)];
      var inner := TraitOccurrences(node.entries[i].1, t, parent, extended);
      var rest := EntriesOccurrences(node, i + 1, t, parent, path);
      TextsOfAppend(kind, key + inner, rest);
      TextsOfAppend(kind, key, inner);
      TraitTexts(node.entries[i].1, t, parent, extended, kind);
      EntriesTexts(node, i + 1, t, parent, path, kind);
    }
  }

  lemma {:induction false} ElementsTexts(node: Node, i: nat, t: Trait, parent: Shape, path: seq<string>, kind: TextLocationType)
    requires node.ArrayNode? && i <= |node.elements|
    requires !t.IsReferences()
    ensures TextsOf(kind, ElementsOccurrences(node, i, t, parent, path)) == ElementTexts(node, i, kind)
    decreases node, 0, |node.elements| - i
  {
    if i < |node.elements| {
      var inner := TraitOccurrences(node.elements[i], t, parent, path + [IndexSegment(i)]);
      TextsOfAppend(kind, inner, ElementsOccurrences(node, i + 1, t, parent, path));
      TraitTexts(node.elements[i], t, parent, path + [IndexSegment(i)], kind);
      ElementsTexts(node, i + 1, t, parent, path, kind);
    }
  }

  // ---------------------------------------------------------------------
  // Where property paths lead
  // ---------------------------------------------------------------------

  /** A trait key or value occurrence of trait `t` on `parent`, found below `path`. */
  predicate FoundUnder(o: TextOccurrence, t: Trait, parent: Shape, path: seq<string>)
  {
    IsTraitLocation(o.locationType) &&
    o.shape == Some(parent) && o.appliedTrait == Some(t) && !t.IsReferences() &&
    |path| <= |o.traitPropertyPath| && o.traitPropertyPath[..|path|] == path
  }

  /**
   * Following the part of the occurrence's path after `path` from `root`
   * reaches the reported string (trait value), or, for a trait key, all but
   * the last segment reach an object holding an entry with the reported
   * key, and the last segment names that key.
   */
  predicate Located(o: TextOccurrence, root: Node, path: seq<string>)
  {
    var full := o.traitPropertyPath;
    |path| <= |full| && full[..|path|] == path &&
    (o.locationType == TraitValue ==>
      Resolve(root, full[|path|..], |path|) == Some(StringNode(o.text))) &&
    (o.locationType == TraitKey ==>
      |path| < |full| &&
      KeyOf(full[|full| - 1], |full| - 1) == Some(o.text) &&
      Resolve(root, full[|path|..], |path|).Some? &&
      var container := Resolve(root, full[|path|..|full| - 1], |path|);
      container.Some? && container.value.ObjectNode? &&
      Lookup(container.value.entries, o.text).Some?)
  }

  lemma LocatedInEntry(o: TextOccurrence, node: Node, j: nat, path: seq<string>)
    requires node.ObjectNode? && j < |node.entries| && UniqueKeys(node)
    requires Located(o, node.entries[j].1, path + [KeySegment(node.entries[j].0, path == [])])
    ensures Located(o, node, path)
  {
    var (key, child) := node.entries[j];
    var segment := KeySegment(key, path == []);
    var extended := path + [segment];
    var full := o.traitPropertyPath;
    assert full[..|path|] == full[..|extended|][..|path|] == extended[..|path|] == path;
    var rel := full[|path|..];
    assert rel[0] == segment && rel[1..] == full[|extended|..];
    KeySegmentRoundTrip(key, |path|);
    LookupUnique(node.entries, j);
    assert Resolve(node, rel, |path|) == Resolve(child, full[|extended|..], |extended|);
  }

  lemma LocatedInElement(o: TextOccurrence, node: Node, j: nat, path: seq<string>)
    requires node.ArrayNode? && j < |node.elements|
    requires Located(o, node.elements[j], path + [IndexSegment(j)])
    ensures Located(o, node, path)
  {
    var extended := path + [IndexSegment(j)];
    var full := o.traitPropertyPath;
    assert full[..|path|] == full[..|extended|][..|path|] == extended[..|path|] == path;
    var rel := full[|path|..];
    assert rel[0] == IndexSegment(j) && rel[1..] == full[|extended|..];
    IndexSegmentRoundTrip(j);
    assert Resolve(node, rel, |path|) == Resolve(node.elements[j], full[|extended|..], |extended|);
  }

  /**
   * Every occurrence found in a trait value belongs to that trait and its
   * shape, is a trait key or value, never comes from the references trait,
   * and carries the walker's path on entry as a prefix; when the value's
   * objects have distinct keys, the rest of its path leads to its text.
   */
  lemma {:induction false} TraitOccurrencesLocated(node: Node, t: Trait, parent: Shape, path: seq<string>)
    ensures forall o :: o in TraitOccurrences(node, t, parent, path) ==>
      FoundUnder(o, t, parent, path) && (UniqueKeys(node) ==> Located(o, node, path))
    decreases node, 1, 0
  {
    if !t.IsReferences() {
      match node
      case StringNode(_) =>
      case ObjectNode(_) => EntriesLocated(node, 0, t, parent, path);
      case ArrayNode(_) => ElementsLocated(node, 0, t, parent, path);
      case OtherNode =>
    }
  }

  lemma {:induction false} EntriesLocated(node: Node, i: nat, t: Trait, parent: Shape, path: seq<string>)
    requires node.ObjectNode? && i <= |node.entries|
    requires !t.IsReferences()
    ensures forall o :: o in EntriesOccurrences(node, i, t, parent, path) ==>
      FoundUnder(o, t, parent, path) && (UniqueKeys(node) ==> Located(o, node, path))
    decreases node, 0, |node.entries| - i
  {
    if i < |node.entries| {
      var (key, child) := node.entries[i];
      var extended := path + [KeySegment(key, path == [])];
      var keyOccurrence := TextOccurrence(TraitKey, key, Some(parent), Some(t), extended);
      TraitOccurrencesLocated(child, t, parent, extended);
      EntriesLocated(node, i + 1, t, parent, path);
      forall o | o in EntriesOccurrences(node, i, t, parent, path)
        ensures FoundUnder(o, t, parent, path) && (UniqueKeys(node) ==> Located(o, node, path))
      {
        if o == keyOccurrence {
          assert extended[..|path|] == path;
          if UniqueKeys(node) {
            KeySegmentRoundTrip(key, |path|);
            LookupUnique(node.entries, i);
            assert extended[|path|..] == [KeySegment(key, path == [])];
          }
        } else if o in TraitOccurrences(child, t, parent, extended) {
          assert o.traitPropertyPath[..|path|] == o.traitPropertyPath[..|extended|][..|path|];
          if UniqueKeys(node) {
            LocatedInEntry(o, node, i, path);
          }
        }
      }
    }
  }

  lemma {:induction false} ElementsLocated(node: Node, i: nat, t: Trait, parent: Shape, path: seq<string>)
    requires node.ArrayNode? && i <= |node.elements|
    ensures forall o :: o in ElementsOccurrences(node, i, t, parent, path) ==>
      FoundUnder(o, t, parent, path) && (UniqueKeys(node) ==> Located(o, node, path))
    decreases node, 0, |node.elements| - i
  {
    if i < |node.elements| {
      var extended := path + [IndexSegment(i)];
      TraitOccurrencesLocated(node.elements[i], t, parent, extended);
      ElementsLocated(node, i + 1, t, parent, path);
      forall o | o in ElementsOccurrences(node, i, t, parent, path)
        ensures FoundUnder(o, t, parent, path) && (UniqueKeys(node) ==> Located(o, node, path))
      {
        if o in TraitOccurrences(node.elements[i], t, parent, extended) {
          assert o.traitPropertyPath[..|path|] == o.traitPropertyPath[..|extended|][..|path|];
          if UniqueKeys(node) {
            LocatedInElement(o, node, i, path);
          }
        } else {
          assert o in ElementsOccurrences(node, i + 1, t, parent, path);
        }
      }
    }
  }

  /**
   * Every occurrence found in element `i` of an array carries, right after
   * the array's own path, the segment that reads back as index `i`.
   */
  lemma ElementSegment(node: Node, i: nat, t: Trait, parent: Shape, path: seq<string>)
    requires node.ArrayNode? && i < |node.elements|
    ensures forall o :: o in TraitOccurrences(node.elements[i], t, parent, path + [IndexSegment(i)]) ==>
      |path| < |o.traitPropertyPath| && IndexOf(o.traitPropertyPath[|path|]) == Some(i)
  {
    var extended := path + [IndexSegment(i)];
    TraitOccurrencesLocated(node.elements[i], t, parent, extended);
    IndexSegmentRoundTrip(i);
    forall o | o in TraitOccurrences(node.elements[i], t, parent, extended)
      ensures |path| < |o.traitPropertyPath| && IndexOf(o.traitPropertyPath[|path|]) == Some(i)
    {
      assert o.traitPropertyPath[..|extended|] == extended;
      assert o.traitPropertyPath[|path|] == o.traitPropertyPath[..|extended|][|path|];
    }
  }

  // ---------------------------------------------------------------------
  // Shapes
  // ---------------------------------------------------------------------

  /**
   * What every occurrence of the structural scan satisfies: it has a
   * shape; it has a trait iff it is a trait key or value, and that trait
   * is never the references trait; a name occurrence has an empty path.
   */
  predicate ScanInvariant(o: TextOccurrence)
  {
    o.shape.Some? && o.locationType != NamespaceLocation &&
    (o.appliedTrait.Some? <==> IsTraitLocation(o.locationType)) &&
    (o.locationType == ShapeLocation ==> o.traitPropertyPath == []) &&
    (o.appliedTrait.Some? ==> !o.appliedTrait.value.IsReferences())
  }

  /**
   * The occurrences of a shape's traits belong to that shape and to one of
   * those traits, and each trait is walked from an empty path: the whole
   * property path of an occurrence leads from its trait's value to its text.
   */
  lemma {:induction false} TraitsOccurrencesFound(traits: seq<Trait>, owner: Shape)
    ensures forall o :: o in TraitsOccurrences(traits, owner) ==>
      IsTraitLocation(o.locationType) && o.shape == Some(owner) &&
      o.appliedTrait.Some? && o.appliedTrait.value in traits &&
      !o.appliedTrait.value.IsReferences() &&
      (UniqueKeys(o.appliedTrait.value.node) ==> Located(o, o.appliedTrait.value.node, []))
    decreases |traits|
  {
    if traits != [] {
      var t := traits[|traits| - 1];
      var init := traits[..|traits| - 1];
      TraitsOccurrencesFound(init, owner);
      TraitOccurrencesLocated(t.node, t, owner, []);
      assert forall u :: u in init ==> u in traits;
    }
  }

  lemma {:induction false} MembersOccurrencesInvariant(members: seq<Shape>)
    ensures forall o :: o in MembersOccurrences(members) ==> ScanInvariant(o) && o.shape.value in members
    decreases |members|
  {
    if members != [] {
      var m := members[|members| - 1];
      var init := members[..|members| - 1];
      MembersOccurrencesInvariant(init);
      TraitsOccurrencesFound(m.traits, m);
      assert forall u :: u in init ==> u in members;
    }
  }

  lemma ShapeOccurrencesInvariant(shape: Shape)
    ensures forall o :: o in ShapeOccurrences(shape) ==> ScanInvariant(o)
  {
    MembersOccurrencesInvariant(shape.members);
    TraitsOccurrencesFound(shape.traits, shape);
  }

  /** Every occurrence of a model's structural scan satisfies the scan invariant. */
  lemma {:induction false} ShapesOccurrencesInvariant(shapes: seq<Shape>)
    ensures forall o :: o in ShapesOccurrences(shapes) ==> ScanInvariant(o)
    decreases |shapes|
  {
    if shapes != [] {
      ShapesOccurrencesInvariant(shapes[..|shapes| - 1]);
      ShapeOccurrencesInvariant(shapes[|shapes| - 1]);
    }
  }

  /** The member names of `members`, in order. */
  function MemberNames(members: seq<Shape>): seq<string>
  {
    seq(|members|, k requires 0 <= k < |members| => members[k].memberName)
  }

  lemma NoNamesInTraits(traits: seq<Trait>, owner: Shape)
    ensures TextsOf(ShapeLocation, TraitsOccurrences(traits, owner)) == []
  {
    var occurrences := TraitsOccurrences(traits, owner);
    TraitsOccurrencesFound(traits, owner);
    assert forall k :: 0 <= k < |occurrences| ==> occurrences[k] in occurrences;
    TextsOfNone(ShapeLocation, occurrences);
  }

  lemma {:induction false} MembersNames(members: seq<Shape>)
    ensures TextsOf(ShapeLocation, MembersOccurrences(members)) == MemberNames(members)
    decreases |members|
  {
    if members != [] {
      var m := members[|members| - 1];
      var init := members[..|members| - 1];
      MembersNames(init);
      NoNamesInTraits(m.traits, m);
      TextsOfAppend(ShapeLocation, MembersOccurrences(init) + [NameOccurrence(m, m.memberName)], TraitsOccurrences(m.traits, m));
      TextsOfAppend(ShapeLocation, MembersOccurrences(init), [NameOccurrence(m, m.memberName)]);
      assert MemberNames(members) == MemberNames(init) + [m.memberName];
    }
  }

  /**
   * The shape walker names a member shape by its member name only, and an
   * aggregate shape by its own name followed by each member's name, in
   * order; the shape's own name comes first. Traits add no names.
   */
  lemma ShapeNames(shape: Shape)
    ensures ShapeOccurrences(shape)[0]
      == NameOccurrence(shape, if shape.isMember then shape.memberName else shape.name)
    ensures TextsOf(ShapeLocation, ShapeOccurrences(shape))
      == if shape.isMember then [shape.memberName] else [shape.name] + MemberNames(shape.members)
  {
    var own := TraitsOccurrences(shape.traits, shape);
    NoNamesInTraits(shape.traits, shape);
    if shape.isMember {
      TextsOfAppend(ShapeLocation, [NameOccurrence(shape, shape.memberName)], own);
    } else {
      var head := [NameOccurrence(shape, shape.name)];
      MembersNames(shape.members);
      TextsOfAppend(ShapeLocation, head + MembersOccurrences(shape.members), own);
      TextsOfAppend(ShapeLocation, head, MembersOccurrences(shape.members));
    }
  }
}
