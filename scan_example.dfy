/**
 * A worked scan: structure `Foo` with member `bar`, whose trait value is
 * {"greeting": "hi", "list": ["a", "b"]}. The first key below the trait
 * root has no leading ".".
 */
module ScanExample {
  import opened Wrappers
  import opened SmithyModel
  import opened TextOccurrences
  import opened PropertyPaths
  import opened TextScan
  import ScanProperties

  const Greetings: Trait := Trait("smithy.example", "greetings",
    ObjectNode([("greeting", StringNode("hi")), ("list", ArrayNode([StringNode("a"), StringNode("b")]))]))
  const Bar: Shape := Shape("smithy.example", "Foo", true, "bar", [], [Greetings])
  const Foo: Shape := Shape("smithy.example", "Foo", false, "", [Bar], [])

  /** The walk of the trait value: keys before their values, paths as the walker pushes them. */
  lemma GreetingsOccurrences()
    ensures TraitOccurrences(Greetings.node, Greetings, Bar, []) == [
      TextOccurrence(TraitKey, "greeting", Some(Bar), Some(Greetings), ["greeting"]),
      TextOccurrence(TraitValue, "hi", Some(Bar), Some(Greetings), ["greeting"]),
      TextOccurrence(TraitKey, "list", Some(Bar), Some(Greetings), ["list"]),
      TextOccurrence(TraitValue, "a", Some(Bar), Some(Greetings), ["list", "[0]"]),
      TextOccurrence(TraitValue, "b", Some(Bar), Some(Greetings), ["list", "[1]"])]
  {
    var root := Greetings.node;
    var list := root.entries[1].1;
    assert !Greetings.IsReferences();
    assert KeySegment("greeting", true) == "greeting" && KeySegment("list", true) == "list";
    assert IndexSegment(0) == "[0]" && IndexSegment(1) == "[1]";
    assert list == ArrayNode([StringNode("a"), StringNode("b")]);
    assert ["list"] + [IndexSegment(0)] == ["list", "[0]"];
    assert ["list"] + [IndexSegment(1)] == ["list", "[1]"];
    var a := TextOccurrence(TraitValue, "a", Some(Bar), Some(Greetings), ["list", "[0]"]);
    var b := TextOccurrence(TraitValue, "b", Some(Bar), Some(Greetings), ["list", "[1]"]);
    assert TraitOccurrences(list.elements[1], Greetings, Bar, ["list", "[1]"]) == [b];
    assert TraitOccurrences(list.elements[0], Greetings, Bar, ["list", "[0]"]) == [a];
    assert ElementsOccurrences(list, 2, Greetings, Bar, ["list"]) == [];
    assert ElementsOccurrences(list, 1, Greetings, Bar, ["list"]) == [b];
    assert ElementsOccurrences(list, 0, Greetings, Bar, ["list"]) == [a, b];
    assert TraitOccurrences(list, Greetings, Bar, ["list"]) == [a, b];
    assert TraitOccurrences(StringNode("hi"), Greetings, Bar, ["greeting"])
      == [TextOccurrence(TraitValue, "hi", Some(Bar), Some(Greetings), ["greeting"])];
    assert root.entries == [("greeting", StringNode("hi")), ("list", list)];
    assert [] + [KeySegment("greeting", true)] == ["greeting"] && [] + [KeySegment("list", true)] == ["list"];
    assert EntriesOccurrences(root, 2, Greetings, Bar, []) == [];
    assert EntriesOccurrences(root, 1, Greetings, Bar, []) ==
      [TextOccurrence(TraitKey, "list", Some(Bar), Some(Greetings), ["list"]), a, b];
  }

  /** Member `bar`: its member name, then the walk of its one trait. */
  lemma BarOccurrences()
    ensures MembersOccurrences([Bar]) == [
      NameOccurrence(Bar, "bar"),
      TextOccurrence(TraitKey, "greeting", Some(Bar), Some(Greetings), ["greeting"]),
      TextOccurrence(TraitValue, "hi", Some(Bar), Some(Greetings), ["greeting"]),
      TextOccurrence(TraitKey, "list", Some(Bar), Some(Greetings), ["list"]),
      TextOccurrence(TraitValue, "a", Some(Bar), Some(Greetings), ["list", "[0]"]),
      TextOccurrence(TraitValue, "b", Some(Bar), Some(Greetings), ["list", "[1]"])]
  {
    GreetingsOccurrences();
    assert [Bar][..0] == [] && [Greetings][..0] == [];
    assert TraitsOccurrences([Greetings], Bar) == TraitOccurrences(Greetings.node, Greetings, Bar, []);
    assert MembersOccurrences([Bar]) == [NameOccurrence(Bar, "bar")] + TraitsOccurrences([Greetings], Bar);
  }

  /** The whole shape: `Foo`, then `bar`, then `bar`'s trait. */
  lemma FooOccurrences()
    ensures ShapeOccurrences(Foo) == [
      NameOccurrence(Foo, "Foo"),
      NameOccurrence(Bar, "bar"),
      TextOccurrence(TraitKey, "greeting", Some(Bar), Some(Greetings), ["greeting"]),
      TextOccurrence(TraitValue, "hi", Some(Bar), Some(Greetings), ["greeting"]),
      TextOccurrence(TraitKey, "list", Some(Bar), Some(Greetings), ["list"]),
      TextOccurrence(TraitValue, "a", Some(Bar), Some(Greetings), ["list", "[0]"]),
      TextOccurrence(TraitValue, "b", Some(Bar), Some(Greetings), ["list", "[1]"])]
  {
    BarOccurrences();
    assert TraitsOccurrences(Foo.traits, Foo) == [];
  }

  /** The only namespace recorded is the one the shapes and the trait share. */
  lemma FooNamespaces()
    ensures ShapeNamespaces(Foo) == {"smithy.example"}
  {
    assert [Bar][..0] == [] && [Greetings][..0] == [];
    assert TraitsNamespaces([Greetings]) == {"smithy.example"};
    assert MembersNamespaces([Bar]) == TraitsNamespaces([Greetings]);
    assert TraitsNamespaces(Foo.traits) == {};
  }

  /**
   * A root-level key segment must name an entry of an object: the element
   * of an array is not the entry of a key "[0]".
   */
  lemma ArrayElementNotLocatedAsKey()
    ensures !ScanProperties.Located(
      TextOccurrence(TraitKey, "[0]", Some(Bar), Some(Greetings), ["[0]"]), ArrayNode([StringNode("x")]), [])
  {
    var o := TextOccurrence(TraitKey, "[0]", Some(Bar), Some(Greetings), ["[0]"]);
    assert o.traitPropertyPath[0..0] == [];
  }
}
