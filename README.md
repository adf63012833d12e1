# Full-text scan of a Smithy model

This project models the traversal engine of Smithy's `AbstractModelTextValidator`,
the base class of linters that search all text in a model. For every shape,
the validator collects the shape's name and its members' names as `SHAPE`
occurrences. It walks every trait value and reports each object key as a
`TRAIT_KEY` and each string as a `TRAIT_VALUE`, each with the property path
where it was found. It records every namespace it meets and adds one `NAMESPACE`
occurrence per namespace. The scan is cached per model, and each occurrence is
handed, in order, to the concrete validator's callback.

Layout:

- `smithy_model.dfy` (`SmithyModel`): trait values as nodes (string, object, array, other), traits, shapes, models.
- `text_occurrence.dfy` (`TextOccurrences`): `TextLocationType`, the `TextOccurrence` record, the `Builder` class and its checks (`BuildOccurrence`).
- `property_paths.dfy` (`PropertyPaths`): the key and index path segments, and `Resolve`, which follows a path back into a trait value.
- `decimal.dfy` (`Decimal`): the decimal rendering of array indexes and its parser.
- `text_scan.dfy` (`TextScan`): the walkers' output as pure functions.
- `text_walker.dfy` (`TextWalker`): the walkers as imperative methods over a shared path stack, occurrence list and namespace set. Each is proved equal to the `TextScan` functions.
- `scan_properties.dfy` (`ScanProperties`): lemmas about the walkers' output.
- `text_validation.dfy` (`TextValidation`): the scan cache, the namespace occurrences, the dispatch loop and `validate`.
- `scan_example.dfy` (`ScanExample`): one worked scan.

Where the documentation and the code disagree, the model follows the code:

- The class comment says prelude shapes are not examined. `validate` walks every shape the model enumerates, without a filter, and so does the model.
- The first object key below a trait root is pushed as the bare key. Only deeper keys get a leading "." (a key under `{"greeting": …}` has path `["greeting"]`, not `[".greeting"]`). `ScanExample.FooOccurrences` shows this on a concrete model.
- The builder does not require a `SHAPE` or `NAMESPACE` occurrence to be without a trait. The walkers simply never supply one there. `ScanProperties.ShapesOccurrencesInvariant` proves this for every occurrence of the structural scan, and `TextValidation.ScanResultWellFormed` for every occurrence of the cached list.

## Model

| member | source | states |
|---|---|---|
| `TextOccurrences.BuildOccurrence` | smithy-linters/src/main/java/software/amazon/smithy/linters/AbstractModelTextValidator.java:258-274 | `build` fails with `MissingLocationType` iff no location type is set. Otherwise it fails with `MissingShape` iff the type is not `NAMESPACE` and no shape is set. Then it fails with `MissingText` iff no text is set, and then with `MissingTrait` iff the type is `TRAIT_KEY`/`TRAIT_VALUE` and no trait is set. It succeeds iff every check passes. A success carries exactly the supplied fields (trait present iff one was supplied) and is well formed. |
| `TextOccurrences.BuildAcceptsWellFormed` | smithy-linters/src/main/java/software/amazon/smithy/linters/AbstractModelTextValidator.java:258-273 | Handing `build` the fields of an occurrence returns that occurrence iff the occurrence is well formed. |
| `TextOccurrences.Builder.constructor` | smithy-linters/src/main/java/software/amazon/smithy/linters/AbstractModelTextValidator.java:222-229 | A new builder has no fields set, and its property path is the empty list. |
| `TextOccurrences.Builder.WithTraitPropertyPath` | smithy-linters/src/main/java/software/amazon/smithy/linters/AbstractModelTextValidator.java:241-246 | A null path is stored as the empty path. A given path is stored as a value copy, so later pushes and pops on the caller's stack cannot change it. |
| `TextOccurrences.Builder.WithShape` | smithy-linters/src/main/java/software/amazon/smithy/linters/AbstractModelTextValidator.java:231-234 | Sets the shape (possibly null) and nothing else. |
| `TextOccurrences.Builder.WithTrait` | smithy-linters/src/main/java/software/amazon/smithy/linters/AbstractModelTextValidator.java:236-239 | Sets the trait (possibly null) and nothing else. |
| `TextOccurrences.Builder.WithLocationType` | smithy-linters/src/main/java/software/amazon/smithy/linters/AbstractModelTextValidator.java:248-251 | Sets the location type and nothing else. |
| `TextOccurrences.Builder.WithText` | smithy-linters/src/main/java/software/amazon/smithy/linters/AbstractModelTextValidator.java:253-256 | Sets the text and nothing else. |
| `TextOccurrences.Builder.Build` | smithy-linters/src/main/java/software/amazon/smithy/linters/AbstractModelTextValidator.java:258-274 | Returns what `BuildOccurrence` gives for the builder's current fields. |
| `TextWalker.PathStack.Push` | smithy-linters/src/main/java/software/amazon/smithy/linters/AbstractModelTextValidator.java:159 | Pushing a segment appends it to the path. |
| `TextWalker.PathStack.Pop` | smithy-linters/src/main/java/software/amazon/smithy/linters/AbstractModelTextValidator.java:169 | Popping removes and returns the last segment. |
| `TextWalker.PathStack.IsEmpty` | smithy-linters/src/main/java/software/amazon/smithy/linters/AbstractModelTextValidator.java:156-158 | True iff the path has no segment. |
| `TextWalker.OccurrenceList.Add` | smithy-linters/src/main/java/software/amazon/smithy/linters/AbstractModelTextValidator.java:146 | Appends one occurrence at the end of the shared collection. |
| `TextWalker.NamespaceSet.Add` | smithy-linters/src/main/java/software/amazon/smithy/linters/AbstractModelTextValidator.java:103 | Adds one namespace to the shared set. |
| `TextWalker.BuildTraitOccurrence` | smithy-linters/src/main/java/software/amazon/smithy/linters/AbstractModelTextValidator.java:146-152 | Building a trait key or value occurrence through the builder always succeeds. The result carries the parent shape, the trait and a copy of the stack's current path. |
| `TextWalker.BuildNameOccurrence` | smithy-linters/src/main/java/software/amazon/smithy/linters/AbstractModelTextValidator.java:105-109 | Building a `SHAPE` occurrence through the builder always succeeds. It has no trait and an empty path. |
| `TextWalker.WalkTrait` | smithy-linters/src/main/java/software/amazon/smithy/linters/AbstractModelTextValidator.java:137-183 | Appends exactly the occurrences `TextScan.TraitOccurrences` describes for the path on entry. It adds exactly the trait's namespace, also for the references trait. It leaves the path stack as it found it, at every depth. |
| `TextWalker.WalkEntries` | smithy-linters/src/main/java/software/amazon/smithy/linters/AbstractModelTextValidator.java:153-170 | For each entry in order, it pushes the bare key (empty stack) or "." + key, appends the key occurrence at that path, walks the value and pops. The result is exactly `TextScan.EntriesOccurrences`, with the stack restored. |
| `TextWalker.WalkElements` | smithy-linters/src/main/java/software/amazon/smithy/linters/AbstractModelTextValidator.java:171-180 | For element i, counting from zero by one, it pushes "[" + i + "]", walks the element and pops. The result is exactly `TextScan.ElementsOccurrences`, with the stack restored. |
| `TextWalker.WalkTraits` | smithy-linters/src/main/java/software/amazon/smithy/linters/AbstractModelTextValidator.java:131-134 | Walks each trait in order, each from a fresh empty stack. It appends `TextScan.TraitsOccurrences` and adds the traits' namespaces. |
| `TextWalker.WalkMembers` | smithy-linters/src/main/java/software/amazon/smithy/linters/AbstractModelTextValidator.java:117-128 | For each member in order, appends its member name and then its traits' occurrences (`TextScan.MembersOccurrences`). |
| `TextWalker.WalkShape` | smithy-linters/src/main/java/software/amazon/smithy/linters/AbstractModelTextValidator.java:101-135 | Appends exactly `TextScan.ShapeOccurrences`. A member shape gives its member name; an aggregate shape gives its name, then each member's name and traits. The shape's own traits come last. It adds the shape's namespace and those of every trait walked (`ShapeNamespaces`). |
| `TextValidation.ScanShapes` | smithy-linters/src/main/java/software/amazon/smithy/linters/AbstractModelTextValidator.java:77-83 | Walks the model's shapes in order, appending `TextScan.ShapesOccurrences` and collecting `ShapesNamespaces`. |
| `TextValidation.ScanCache.AddNamespaceOccurrence` | smithy-linters/src/main/java/software/amazon/smithy/linters/AbstractModelTextValidator.java:86-89 | Appends one `NAMESPACE` occurrence, built through the builder, to the list cached for the model, and changes nothing else. |
| `TextValidation.ScanCache.AppendNamespaces` | smithy-linters/src/main/java/software/amazon/smithy/linters/AbstractModelTextValidator.java:85-90 | Appends to the cached list itself, after what it held, one `NAMESPACE` occurrence per namespace of the set, in some order. Other cache entries are unchanged. |
| `TextValidation.TextValidator.Validate` | smithy-linters/src/main/java/software/amazon/smithy/linters/AbstractModelTextValidator.java:75-99 | On a model not yet cached, it caches the structural scan followed by one namespace occurrence per namespace found, and touches no other entry. On a cached model the cache is unchanged. The returned events are the callback's events for every cached occurrence, in order. |
| `TextValidation.TextValidator.DispatchAll` | smithy-linters/src/main/java/software/amazon/smithy/linters/AbstractModelTextValidator.java:92-98 | Returns the callback's events for each occurrence, concatenated in occurrence order (`Dispatch`). |
| `TextValidation.ValidateTwice` | smithy-linters/src/main/java/software/amazon/smithy/linters/AbstractModelTextValidator.java:76-90 | The first `validate` touches only the model's own cache entry, adding it (as a scan result) only when it was missing. The second call leaves the cache exactly as the first left it and returns the same events. |
| `TextValidation.DispatchAppend` | smithy-linters/src/main/java/software/amazon/smithy/linters/AbstractModelTextValidator.java:92-97 | Dispatching a concatenation gives the events of the first part followed by those of the second. |
| `TextValidation.AppendNamespace` | smithy-linters/src/main/java/software/amazon/smithy/linters/AbstractModelTextValidator.java:85-90 | Appending the occurrence of a namespace not yet listed keeps the appended tail a one-per-namespace enumeration. |
| `TextValidation.EnumerationSize` | smithy-linters/src/main/java/software/amazon/smithy/linters/AbstractModelTextValidator.java:76-90 | An enumeration of a namespace set holds exactly as many occurrences as the set has namespaces. |
| `TextValidation.ScanResultWellFormed` | smithy-linters/src/main/java/software/amazon/smithy/linters/AbstractModelTextValidator.java:101-135 | Every occurrence a cached scan holds is one `build` accepts. It has a trait iff it is a trait key or value, and a non-empty path only then. |
| `TextValidation.EmptyModelYieldsNothing` | smithy-linters/src/main/java/software/amazon/smithy/linters/AbstractModelTextValidator.java:75-98 | A model without shapes caches no occurrence and yields no event, whatever the callback. |
| `ScanProperties.TextsOfAppend` | smithy-linters/src/main/java/software/amazon/smithy/linters/AbstractModelTextValidator.java:146-166 | The texts of one kind in a concatenation are those of the first part followed by those of the second. |
| `ScanProperties.TraitTexts` | smithy-linters/src/main/java/software/amazon/smithy/linters/AbstractModelTextValidator.java:145-181 | For any trait but references: the `TRAIT_KEY` texts are all the value's object keys at every depth, in document order, so there are as many as there are entries. The `TRAIT_VALUE` texts are all its strings in document order. No other kind occurs. |
| `ScanProperties.EntriesTexts` | smithy-linters/src/main/java/software/amazon/smithy/linters/AbstractModelTextValidator.java:153-170 | The same for the entries of an object from a given entry on: each key once, followed by its value's texts. |
| `ScanProperties.ElementsTexts` | smithy-linters/src/main/java/software/amazon/smithy/linters/AbstractModelTextValidator.java:171-180 | The same for the elements of an array from a given element on. |
| `ScanProperties.TraitOccurrencesLocated` | smithy-linters/src/main/java/software/amazon/smithy/linters/AbstractModelTextValidator.java:137-183 | Every occurrence of a trait walk is a key or value of that trait, on that shape. It never comes from the references trait, and its path extends the path on entry. When the value's keys are distinct, the rest of its path, read by `Resolve`, leads to the reported string. For a reported key, the path without its last segment leads to an object holding an entry with that key, the last segment names the key, and the whole path resolves. |
| `ScanProperties.EntriesLocated` | smithy-linters/src/main/java/software/amazon/smithy/linters/AbstractModelTextValidator.java:153-170 | The same for an object's entries. Each key's path ends in a segment naming that key, and the path before that segment leads to the object that holds the key. |
| `ScanProperties.ElementsLocated` | smithy-linters/src/main/java/software/amazon/smithy/linters/AbstractModelTextValidator.java:171-180 | The same for an array's elements. |
| `ScanProperties.ElementSegment` | smithy-linters/src/main/java/software/amazon/smithy/linters/AbstractModelTextValidator.java:171-180 | Every occurrence found in element i of an array carries, right after the array's own path, the segment "[" + i + "]" that reads back as index i. So a text is attributed to the element it came from, even when two elements hold equal strings. |
| `ScanProperties.LocatedInEntry` | smithy-linters/src/main/java/software/amazon/smithy/linters/AbstractModelTextValidator.java:156-168 | When the object's keys are distinct, a path that locates text in an entry's value, under the key segment pushed for that entry, locates it in the object too. |
| `ScanProperties.LocatedInElement` | smithy-linters/src/main/java/software/amazon/smithy/linters/AbstractModelTextValidator.java:175-177 | A path that locates text in element i, under the segment "[" + i + "]", locates it in the array too. |
| `ScanProperties.TraitsOccurrencesFound` | smithy-linters/src/main/java/software/amazon/smithy/linters/AbstractModelTextValidator.java:124-134 | A shape's trait occurrences belong to that shape and to one of its traits, never the references trait. Each trait is walked from an empty path, so the whole path leads from the trait's value to the text. |
| `ScanProperties.MembersOccurrencesInvariant` | smithy-linters/src/main/java/software/amazon/smithy/linters/AbstractModelTextValidator.java:117-128 | The members' occurrences satisfy the scan invariant and belong to one of the members. |
| `ScanProperties.ShapeOccurrencesInvariant` | smithy-linters/src/main/java/software/amazon/smithy/linters/AbstractModelTextValidator.java:101-135 | Every occurrence of a shape walk has a shape, has a trait iff it is a trait key or value, and a name occurrence has an empty path. |
| `ScanProperties.ShapesOccurrencesInvariant` | smithy-linters/src/main/java/software/amazon/smithy/linters/AbstractModelTextValidator.java:79-81 | The same for the scan of all of a model's shapes. |
| `ScanProperties.NoNamesInTraits` | smithy-linters/src/main/java/software/amazon/smithy/linters/AbstractModelTextValidator.java:131-134 | Trait walks contribute no `SHAPE` occurrence. |
| `ScanProperties.MembersNames` | smithy-linters/src/main/java/software/amazon/smithy/linters/AbstractModelTextValidator.java:117-123 | The `SHAPE` texts of the members' walk are the member names, in order. |
| `ScanProperties.ShapeNames` | smithy-linters/src/main/java/software/amazon/smithy/linters/AbstractModelTextValidator.java:104-122 | A member shape yields exactly one `SHAPE` occurrence, its member name. An aggregate shape yields its own name first and then each member's name in order. |
| `ScanExample.GreetingsOccurrences` | smithy-linters/src/main/java/software/amazon/smithy/linters/AbstractModelTextValidator.java:145-181 | On the trait value `{"greeting": "hi", "list": ["a", "b"]}`, gives the exact walk. Each key comes before its value. First-level keys have bare segments and array elements have segments "[0]" and "[1]". |
| `ScanExample.BarOccurrences` | smithy-linters/src/main/java/software/amazon/smithy/linters/AbstractModelTextValidator.java:117-127 | For member `bar`, gives its member name, then its trait's five occurrences in walk order. |
| `ScanExample.FooOccurrences` | smithy-linters/src/main/java/software/amazon/smithy/linters/AbstractModelTextValidator.java:101-133 | For structure `Foo` with member `bar`, gives the exact seven-occurrence sequence: the shape name, then the member name, then the member's trait walk. |
| `ScanExample.FooNamespaces` | smithy-linters/src/main/java/software/amazon/smithy/linters/AbstractModelTextValidator.java:101-133 | The walk of `Foo` records exactly one namespace, `smithy.example`, which the shape, the member and the trait share. |
| `ScanExample.ArrayElementNotLocatedAsKey` | smithy-linters/src/main/java/software/amazon/smithy/linters/AbstractModelTextValidator.java:153-166 | A key occurrence is located only where its path leads to an object that holds the key: the key "[0]" at path `["[0]"]` is not located in the array `["x"]`. |
| `PropertyPaths.KeyOf` | smithy-linters/src/main/java/software/amazon/smithy/linters/AbstractModelTextValidator.java:156-159 | A key read from a segment is the key whose segment it is: bare at the root, "." + key below. |
| `PropertyPaths.KeySegmentRoundTrip` | smithy-linters/src/main/java/software/amazon/smithy/linters/AbstractModelTextValidator.java:156-159 | The segment pushed for a key reads back as that key at its depth. |
| `PropertyPaths.IndexSegmentRoundTrip` | smithy-linters/src/main/java/software/amazon/smithy/linters/AbstractModelTextValidator.java:175 | The segment "[" + i + "]" reads back as index i. |
| `Decimal.NatToString` | smithy-linters/src/main/java/software/amazon/smithy/linters/AbstractModelTextValidator.java:175 | An index renders as a non-empty string of decimal digits without leading zeros. |
| `Decimal.ParseNatToString` | smithy-linters/src/main/java/software/amazon/smithy/linters/AbstractModelTextValidator.java:175 | Parsing the rendering of an index gives the index back. |
| `Decimal.NatToStringInjective` | smithy-linters/src/main/java/software/amazon/smithy/linters/AbstractModelTextValidator.java:173-179 | Distinct indexes render as distinct segments, so sibling array elements never share a path. |

## Left out

- The `ConcurrentHashMap` cache is a plain sequential map, with no thread safety and no concurrent first access. It is keyed by the model's value: equal models share an entry, as they would under `equals`. The cache is a `ScanCache` object shared by validators, not a static field.
- Smithy's `Model`, `Shape`, `MemberShape`, `Trait`, `ShapeId` and `Node` classes are reduced to the datatypes in `smithy_model.dfy`. The shapes `model.shapes()` enumerates are an input sequence. Whether that sequence also lists member shapes (which would walk members twice) depends on the Smithy library and is not part of this model.
- `ReferencesTrait.ID` is taken to be `smithy.api#references`.
- `getAllTraits().values()` is a map in Smithy. Its iteration order is modelled as the fixed order of a shape's trait sequence.
- The `HashSet` iteration order of namespaces is left open. The method picks each namespace arbitrarily, and its contract only says that each namespace is appended exactly once.
- `ValidationEvent` is a type parameter. `getValidationEvents` is a total function from an occurrence to the events it yields. Exceptions the callback might throw are not modelled.
- `build`'s `IllegalStateException` is a `Failure` value. The walkers are proved never to get one.
- The `RuntimeException` for a null path in `TextOccurrence`'s private constructor is not modelled: the builder never passes null.
- The builder setters return `this` for chaining in the source; here they return nothing.
- `Stack.pop` on an empty stack throws; here that is a precondition, and the walkers are proved to meet it.
- The `int` array index would wrap after 2^31 elements. Indexes here are unbounded naturals.
- `ScanProperties.TraitOccurrencesLocated`: the path-location half assumes object keys are distinct, as they are in Smithy's map-backed object nodes. Without that, `Resolve` would follow the first of several equal keys.
