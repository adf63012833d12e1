/**
 * Property-path segments the trait walker pushes, and a reader that
 * follows a path back into a trait value. The reader is not part of the
 * scanned code: it is the reference the walker's paths are checked against.
 */
module PropertyPaths {
  import opened Wrappers
  import opened SmithyModel
  import opened Decimal

  /** The segment for an object key: the bare key at the root of a trait value, "." + key below it. */
  function KeySegment(key: string, atRoot: bool): string
  {
    (if atRoot then "" else ".") + key
  }

  /** The segment for the array element at `index`: "[" + index + "]". */
  function IndexSegment(index: nat): string
  {
    "[" + NatToString(index) + "]"
  }

  /** The key a segment names when it is the segment at position `depth` of a path. */
  function KeyOf(segment: string, depth: nat): (r: Option<string>)
    ensures r.Some? ==> KeySegment(r.value, depth == 0) == segment
  {
    if depth == 0 then Some(segment)
    else if |segment| > 0 && segment[0] == '.' then Some(segment[1..])
    else None
  }

  /** The index an array segment names. */
  function IndexOf(segment: string): (r: Option<nat>)
  {
    if |segment| >= 2 && segment[0] == '[' && segment[|segment| - 1] == ']'
    then ParseNat(segment[1..|segment| - 1])
    else None
  }

  lemma KeySegmentRoundTrip(key: string, depth: nat)
    ensures KeyOf(KeySegment(key, depth == 0), depth) == Some(key)
  {
    if depth == 0 {
      assert KeySegment(key, true) == key;
    } else {
      assert KeySegment(key, false)[1..] == key;
    }
  }

  lemma IndexSegmentRoundTrip(index: nat)
    ensures IndexOf(IndexSegment(index)) == Some(index)
  {
    var s := IndexSegment(index);
    assert s[1..|s| - 1] == NatToString(index);
    ParseNatToString(index);
  }

  /** The value of the first entry with `key`, if any. */
  function Lookup(entries: seq<(string, Node)>, key: string): (r: Option<Node>)
    ensures r.Some? ==> exists i :: 0 <= i < |entries| && entries[i] == (key, r.value)
    ensures r.None? ==> forall i :: 0 <= i < |entries| ==> entries[i].0 != key
  {
    if entries == [] then None
    else if entries[0].0 == key then Some(entries[0].1)
    else
      var r := Lookup(entries[1..], key);
      assert r.Some? ==> exists i :: 0 <= i < |entries[1..]| && entries[1..][i] == (key, r.value);
      r
  }

  lemma {:induction false} LookupUnique(entries: seq<(string, Node)>, j: nat)
    requires j < |entries|
    requires forall i, k :: 0 <= i < k < |entries| ==> entries[i].0 != entries[k].0
    ensures Lookup(entries, entries[j].0) == Some(entries[j].1)
  {
    if j > 0 {
      LookupUnique(entries[1..], j - 1);
    }
  }

  /**
   * Follows `path` from `node`, whose first segment sits at position
   * `depth` of the whole path: key segments step into objects, index
   * segments into arrays.
   */
  function Resolve(node: Node, path: seq<string>, depth: nat): Option<Node>
    decreases path
  {
    if path == [] then Some(node)
    else match node
      case ObjectNode(entries) =>
        (match KeyOf(path[0], depth)
          case None => None
          case Some(key) =>
            match Lookup(entries, key)
            case None => None
            case Some(child) => Resolve(child, path[1..], depth + 1))
      case ArrayNode(elements) =>
        (match IndexOf(path[0])
          case None => None
          case Some(index) =>
            if index < |elements| then Resolve(elements[index], path[1..], depth + 1) else None)
      case _ => None
  }
}
