/**
 * The record the scan produces for each piece of text, and the builder
 * that checks it before anyone sees it.
 */
module TextOccurrences {
  import opened Wrappers
  import opened SmithyModel

  /** Where a piece of text was found: a shape or member name, a trait value, a trait key, a namespace. */
  datatype TextLocationType = ShapeLocation | TraitValue | TraitKey | NamespaceLocation

  predicate IsTraitLocation(locationType: TextLocationType)
  {
    locationType == TraitKey || locationType == TraitValue
  }

  /**
   * One occurrence of text: its location kind, the text, the shape it
   * belongs to (absent only for namespaces), the trait it was found in, if
   * any, and the property path inside that trait's value.
   */
  datatype TextOccurrence = TextOccurrence(
    locationType: TextLocationType,
    text: string,
    shape: Option<Shape>,
    appliedTrait: Option<Trait>,
    traitPropertyPath: seq<string>)

  /** Why `build` refuses: the `IllegalStateException` it throws, one per check. */
  datatype BuildError = MissingLocationType | MissingShape | MissingText | MissingTrait

  /** What `build` insists on of an occurrence it returns. */
  predicate WellFormed(o: TextOccurrence)
  {
    (o.locationType != NamespaceLocation ==> o.shape.Some?) &&
    (IsTraitLocation(o.locationType) ==> o.appliedTrait.Some?)
  }

  /**
   * `Builder.build`: the four checks, in order, on the fields assembled so
   * far; an unset field is `None`. On success the occurrence carries exactly
   * the supplied fields.
   */
  function BuildOccurrence(
    locationType: Option<TextLocationType>,
    text: Option<string>,
    shape: Option<Shape>,
    appliedTrait: Option<Trait>,
    traitPropertyPath: seq<string>): (r: Result<TextOccurrence, BuildError>)
    ensures r == Failure(MissingLocationType) <==> locationType.None?
    ensures locationType.Some? ==>
      (r == Failure(MissingShape) <==> locationType.value != NamespaceLocation && shape.None?)
    ensures locationType.Some? && (locationType.value == NamespaceLocation || shape.Some?) ==>
      (r == Failure(MissingText) <==> text.None?)
    ensures locationType.Some? && (locationType.value == NamespaceLocation || shape.Some?) && text.Some? ==>
      (r == Failure(MissingTrait) <==> IsTraitLocation(locationType.value) && appliedTrait.None?)
    ensures r.Success? <==>
      locationType.Some? && text.Some? &&
      (locationType.value != NamespaceLocation ==> shape.Some?) &&
      (IsTraitLocation(locationType.value) ==> appliedTrait.Some?)
    ensures r.Success? ==>
      r.value == TextOccurrence(locationType.value, text.value, shape, appliedTrait, traitPropertyPath) &&
      WellFormed(r.value)
  {
    if locationType.None? then Failure(MissingLocationType)
    else if locationType.value != NamespaceLocation && shape.None? then Failure(MissingShape)
    else if text.None? then Failure(MissingText)
    else if IsTraitLocation(locationType.value) && appliedTrait.None? then Failure(MissingTrait)
    else Success(TextOccurrence(locationType.value, text.value, shape, appliedTrait, traitPropertyPath))
  }

  /**
   * `build` accepts exactly the well-formed occurrences: handing it the
   * fields of an occurrence gives that occurrence back iff it is well formed.
   */
  lemma BuildAcceptsWellFormed(o: TextOccurrence)
    ensures BuildOccurrence(Some(o.locationType), Some(o.text), o.shape, o.appliedTrait, o.traitPropertyPath) == Success(o)
      <==> WellFormed(o)
  {
  }

  /**
   * `TextOccurrence.Builder`: fields set one at a time, checked only by
   * `Build`. The property path starts empty.
   */
  class Builder {
    var locationType: Option<TextLocationType>
    var text: Option<string>
    var shape: Option<Shape>
    var appliedTrait: Option<Trait>
    var traitPropertyPath: seq<string>

    constructor ()
      ensures locationType == None && text == None && shape == None && appliedTrait == None
      ensures traitPropertyPath == []
    {
      locationType := None;
      text := None;
      shape := None;
      appliedTrait := None;
      traitPropertyPath := [];
    }

    method WithShape(shape: Option<Shape>)
      modifies this`shape
      ensures this.shape == shape
    {
      this.shape := shape;
    }

    method WithTrait(appliedTrait: Option<Trait>)
      modifies this`appliedTrait
      ensures this.appliedTrait == appliedTrait
    {
      this.appliedTrait := appliedTrait;
    }

    /**
     * Stores a copy of the given path, or the empty path for null; the
     * builder never shares the caller's list.
     */
    method WithTraitPropertyPath(path: Option<seq<string>>)
      modifies this`traitPropertyPath
      ensures traitPropertyPath == (if path.Some? then path.value else [])
    {
      traitPropertyPath := if path.Some? then path.value else [];
    }

    method WithLocationType(locationType: Option<TextLocationType>)
      modifies this`locationType
      ensures this.locationType == locationType
    {
      this.locationType := locationType;
    }

    method WithText(text: Option<string>)
      modifies this`text
      ensures this.text == text
    {
      this.text := text;
    }

    method Build() returns (r: Result<TextOccurrence, BuildError>)
      ensures r == BuildOccurrence(locationType, text, shape, appliedTrait, traitPropertyPath)
    {
      r := BuildOccurrence(locationType, text, shape, appliedTrait, traitPropertyPath);
    }
  }
}
