/**
 * `validate`: the per-model scan cache, the synthetic namespace
 * occurrences appended to the cached list, and the dispatch of every
 * occurrence to the validator's callback.
 */
module TextValidation {
  import opened Wrappers
  import opened SmithyModel
  import opened TextOccurrences
  import opened TextScan
  import opened TextWalker
  import opened ScanProperties

  /** The occurrence `validate` builds for a namespace. */
  function NamespaceOccurrence(namespace: string): TextOccurrence
  {
    TextOccurrence(NamespaceLocation, namespace, None, None, [])
  }

  /**
   * `tail` holds one namespace occurrence for each namespace in
   * `namespaces` and nothing else, in some order (the set's iteration order
   * is not fixed).
   */
  predicate EnumeratesNamespaces(tail: seq<TextOccurrence>, namespaces: set<string>)
  {
    (forall k :: 0 <= k < |tail| ==> tail[k] == NamespaceOccurrence(tail[k].text) && tail[k].text in namespaces) &&
    (forall j, k :: 0 <= j < k < |tail| ==> tail[j].text != tail[k].text) &&
    (forall n :: n in namespaces ==> exists k :: 0 <= k < |tail| && tail[k].text == n)
  }

  /**
   * What the cache holds for `model` after its first `validate`: the
   * structural scan of its shapes, followed by the namespace occurrences.
   */
  predicate IsScanResult(occurrences: seq<TextOccurrence>, model: Model)
  {
    var scan := ShapesOccurrences(model.shapes);
    |scan| <= |occurrences| &&
    occurrences[..|scan|] == scan &&
    EnumeratesNamespaces(occurrences[|scan|..], ShapesNamespaces(model.shapes))
  }

  /** The events the callback yields for `occurrences`, concatenated in order. */
  function Dispatch<E>(occurrences: seq<TextOccurrence>, callback: TextOccurrence -> seq<E>): seq<E>
    decreases |occurrences|
  {
    if occurrences == [] then []
    else Dispatch(occurrences[..|occurrences| - 1], callback) + callback(occurrences[|occurrences| - 1])
  }

  /** `MODEL_TO_TEXT_MAP`: the scan results, keyed by model, shared by every validator. */
  class ScanCache {
    var entries: map<Model, seq<TextOccurrence>>

    constructor ()
      ensures entries == map[]
    {
      entries := map[];
    }

    /** `textOccurrences.add(...)`: appends the occurrence of `namespace`, built through the builder, to the list cached for `model`. */
    method AddNamespaceOccurrence(model: Model, namespace: string)
      requires model in entries
      modifies this
      ensures entries == old(entries)[model := old(entries[model]) + [NamespaceOccurrence(namespace)]]
    {
      var builder := new Builder();
      builder.WithLocationType(Some(NamespaceLocation));
      builder.WithText(Some(namespace));
      var r := builder.Build();
      entries := entries[model := entries[model] + [r.value]];
    }

    /**
     * The loop over the scan's namespaces: appends one namespace
     * occurrence per namespace to the list cached for `model`, in the
     * set's iteration order.
     */
    method AppendNamespaces(model: Model, namespaces: set<string>)
      requires model in entries
      modifies this
      ensures model in entries
      ensures entries == old(entries)[model := entries[model]]
      ensures |old(entries[model])| <= |entries[model]|
      ensures entries[model][..|old(entries[model])|] == old(entries[model])
      ensures EnumeratesNamespaces(entries[model][|old(entries[model])|..], namespaces)
    {
      ghost var original := entries[model];
      ghost var listed: set<string> := {};
      var remaining := namespaces;
      while remaining != {}
        invariant listed + remaining == namespaces && listed !! remaining
        invariant model in entries
        invariant entries == old(entries)[model := entries[model]]
        invariant |original| <= |entries[model]|
        invariant entries[model][..|original|] == original
        invariant EnumeratesNamespaces(entries[model][|original|..], listed)
        decreases remaining
      {
        var namespace :| namespace in remaining;
        AppendNamespace(entries[model], |original|, listed, namespace);
        AddNamespaceOccurrence(model, namespace);
        listed := listed + {namespace};
        remaining := remaining - {namespace};
      }
    }
  }

  /** The `forEach` over `model.shapes()` inside `computeIfAbsent`. */
  method ScanShapes(shapes: seq<Shape>, texts: OccurrenceList, namespaces: NamespaceSet)
    modifies texts, namespaces
    ensures texts.items == old(texts.items) + ShapesOccurrences(shapes)
    ensures namespaces.elements == old(namespaces.elements) + ShapesNamespaces(shapes)
  {
    ghost var texts0, namespaces0 := texts.items, namespaces.elements;
    var i := 0;
    while i < |shapes|
      invariant 0 <= i <= |shapes|
      invariant texts.items == texts0 + ShapesOccurrences(shapes[..i])
      invariant namespaces.elements == namespaces0 + ShapesNamespaces(shapes[..i])
    {
      ScanNext(shapes, i, texts0, namespaces0, texts, namespaces);
      i := i + 1;
    }
    assert shapes[..i] == shapes;
  }

  /** One iteration of `ScanShapes`: walking the `i`-th shape extends the scan of the first `i`. */
  method ScanNext(shapes: seq<Shape>, i: nat, ghost texts0: seq<TextOccurrence>, ghost namespaces0: set<string>,
                  texts: OccurrenceList, namespaces: NamespaceSet)
    requires i < |shapes|
    requires texts.items == texts0 + ShapesOccurrences(shapes[..i])
    requires namespaces.elements == namespaces0 + ShapesNamespaces(shapes[..i])
    modifies texts, namespaces
    ensures texts.items == texts0 + ShapesOccurrences(shapes[..i + 1])
    ensures namespaces.elements == namespaces0 + ShapesNamespaces(shapes[..i + 1])
  {
    WalkShape(shapes[i], texts, namespaces);
    ShapesStep(shapes, i);
    ConcatAssociative(texts0, ShapesOccurrences(shapes[..i]), ShapeOccurrences(shapes[i]));
    UnionAssociative(namespaces0, ShapesNamespaces(shapes[..i]), ShapeNamespaces(shapes[i]));
  }

  /** One more shape extends the scan of a prefix by that shape's occurrences and namespaces. */
  lemma ShapesStep(shapes: seq<Shape>, i: nat)
    requires i < |shapes|
    ensures ShapesOccurrences(shapes[..i + 1]) == ShapesOccurrences(shapes[..i]) + ShapeOccurrences(shapes[i])
    ensures ShapesNamespaces(shapes[..i + 1]) == ShapesNamespaces(shapes[..i]) + ShapeNamespaces(shapes[i])
  {
    assert shapes[..i + 1][..i] == shapes[..i];
  }

  /**
   * A full-text validator: the shared cache and the per-occurrence
   * callback a concrete validator supplies (`getValidationEvents`).
   */
  class TextValidator<E> {
    const cache: ScanCache
    const getValidationEvents: TextOccurrence -> seq<E>

    constructor (cache: ScanCache, getValidationEvents: TextOccurrence -> seq<E>)
      ensures this.cache == cache && this.getValidationEvents == getValidationEvents
    {
      this.cache := cache;
      this.getValidationEvents := getValidationEvents;
    }

    /**
     * Scans `model` unless the cache already holds it, appends one
     * namespace occurrence per namespace found by that scan to the cached
     * list, and returns the callback's events for every cached occurrence.
     */
    method Validate(model: Model) returns (events: seq<E>)
      modifies cache
      ensures model in cache.entries
      ensures model in old(cache.entries) ==> cache.entries == old(cache.entries)
      ensures model !in old(cache.entries) ==>
        cache.entries == old(cache.entries)[model := cache.entries[model]] &&
        IsScanResult(cache.entries[model], model)
      ensures events == Dispatch(cache.entries[model], getValidationEvents)
    {
      var namespaces := new NamespaceSet();
      if model !in cache.entries {
        var texts := new OccurrenceList();
        ScanShapes(model.shapes, texts, namespaces);
        cache.entries := cache.entries[model := texts.items];
      }
      ghost var scanned := cache.entries[model];
      cache.AppendNamespaces(model, namespaces.elements);
      if model in old(cache.entries) {
        EnumerationSize(cache.entries[model][|scanned|..], namespaces.elements);
        assert cache.entries[model] == scanned;
      }
      events := DispatchAll(cache.entries[model]);
    }

    /** The dispatch loop: the callback's events for each occurrence, in order. */
    method DispatchAll(textOccurrences: seq<TextOccurrence>) returns (events: seq<E>)
      ensures events == Dispatch(textOccurrences, getValidationEvents)
    {
      events := [];
      var k := 0;
      while k < |textOccurrences|
        invariant 0 <= k <= |textOccurrences|
        invariant events == Dispatch(textOccurrences[..k], getValidationEvents)
      {
        events := events + getValidationEvents(textOccurrences[k]);
        assert textOccurrences[..k + 1][..k] == textOccurrences[..k];
        k := k + 1;
      }
      assert textOccurrences[..k] == textOccurrences;
    }
  }

  /** Appending the occurrence of a namespace not yet listed keeps the tail an enumeration. */
  lemma AppendNamespace(occurrences: seq<TextOccurrence>, start: nat, listed: set<string>, namespace: string)
    requires start <= |occurrences|
    requires EnumeratesNamespaces(occurrences[start..], listed)
    requires namespace !in listed
    ensures EnumeratesNamespaces((occurrences + [NamespaceOccurrence(namespace)])[start..], listed + {namespace})
  {
    var tail := occurrences[start..];
    var tail' := (occurrences + [NamespaceOccurrence(namespace)])[start..];
    assert tail' == tail + [NamespaceOccurrence(namespace)];
    forall n | n in listed + {namespace}
      ensures exists k :: 0 <= k < |tail'| && tail'[k].text == n
    {
      if n == namespace {
        assert tail'[|tail|].text == n;
      } else {
        var k :| 0 <= k < |tail| && tail[k].text == n;
        assert tail'[k].text == n;
      }
    }
  }

  /**
   * Every occurrence a validator is handed is one `build` accepts; it has a
   * trait iff it is a trait key or value, and a path only then.
   */
  lemma ScanResultWellFormed(occurrences: seq<TextOccurrence>, model: Model)
    requires IsScanResult(occurrences, model)
    ensures forall k :: 0 <= k < |occurrences| ==>
      WellFormed(occurrences[k]) &&
      (occurrences[k].appliedTrait.Some? <==> IsTraitLocation(occurrences[k].locationType)) &&
      (!IsTraitLocation(occurrences[k].locationType) ==> occurrences[k].traitPropertyPath == [])
  {
    var scan := ShapesOccurrences(model.shapes);
    ShapesOccurrencesInvariant(model.shapes);
    forall k | 0 <= k < |occurrences|
      ensures WellFormed(occurrences[k])
      ensures occurrences[k].appliedTrait.Some? <==> IsTraitLocation(occurrences[k].locationType)
      ensures !IsTraitLocation(occurrences[k].locationType) ==> occurrences[k].traitPropertyPath == []
    {
      if k < |scan| {
        assert occurrences[k] == scan[k];
        assert scan[k] in scan;
      } else {
        assert occurrences[k] == occurrences[|scan|..][k - |scan|];
      }
    }
  }

  /** An empty model yields no occurrence, hence no event, whatever the callback. */
  lemma EmptyModelYieldsNothing<E>(occurrences: seq<TextOccurrence>, callback: TextOccurrence -> seq<E>)
    requires IsScanResult(occurrences, Model([]))
    ensures occurrences == []
    ensures Dispatch(occurrences, callback) == []
  {
    EnumerationSize(occurrences[|ShapesOccurrences([])|..], ShapesNamespaces([]));
  }

  /** An enumeration of a namespace set has one occurrence per namespace. */
  lemma {:induction false} EnumerationSize(tail: seq<TextOccurrence>, namespaces: set<string>)
    requires EnumeratesNamespaces(tail, namespaces)
    ensures |tail| == |namespaces|
    decreases |tail|
  {
    if tail == [] {
      assert namespaces == {};
    } else {
      var init := tail[..|tail| - 1];
      var last := tail[|tail| - 1].text;
      forall n | n in namespaces - {last}
        ensures exists k :: 0 <= k < |init| && init[k].text == n
      {
        var k :| 0 <= k < |tail| && tail[k].text == n;
        assert init[k].text == n;
      }
      EnumerationSize(init, namespaces - {last});
    }
  }

  /** Dispatching a concatenation dispatches each part in turn. */
  lemma {:induction false} DispatchAppend<E>(a: seq<TextOccurrence>, b: seq<TextOccurrence>, callback: TextOccurrence -> seq<E>)
    ensures Dispatch(a + b, callback) == Dispatch(a, callback) + Dispatch(b, callback)
    decreases |b|
  {
    if b == [] {
      assert a + b == a;
    } else {
      var init := b[..|b| - 1];
      assert (a + b)[..|a + b| - 1] == a + init;
      DispatchAppend(a, init, callback);
    }
  }

  /**
   * A second `validate` of the same model scans nothing, appends nothing
   * and dispatches the same occurrences, so it returns the same events.
   */
  method ValidateTwice<E>(validator: TextValidator<E>, model: Model)
    returns (first: seq<E>, second: seq<E>, ghost afterFirst: map<Model, seq<TextOccurrence>>)
    modifies validator.cache
    ensures first == second
    ensures model in afterFirst
    ensures model in old(validator.cache.entries) ==> afterFirst == old(validator.cache.entries)
    ensures model !in old(validator.cache.entries) ==>
      afterFirst == old(validator.cache.entries)[model := afterFirst[model]] &&
      IsScanResult(afterFirst[model], model)
    ensures validator.cache.entries == afterFirst
  {
    first := validator.Validate(model);
    afterFirst := validator.cache.entries;
    second := validator.Validate(model);
  }
}
