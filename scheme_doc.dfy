/** The loaded scheme artwork (`Scheme`): its root node, the metadata parsed from the node's
    `<metadata>` child on first request, the transform of the `transform-wrapper` element
    looked up on first request, and the current scale. */
module SchemeDoc {
  import opened Wrappers

  /** A native pixel size of the artwork. */
  type Dimension = r: real | r > 0.0 witness 1.0

  /** What the JSON inside `<metadata>` yields for this model: the artwork's native size. */
  datatype Metadata = Metadata(width: Dimension, height: Dimension)

  /** A direct child of the scheme's root node. A `<metadata>` child carries the result of
      parsing its text: None when it has no text node or the text is not well-formed JSON. */
  datatype Element =
    | MetadataElement(parsed: Option<Metadata>)
    | Graphic(name: string)

  /** The first item of the `transform-wrapper` element's transform list, as an opaque handle. */
  datatype Transform = Transform(handle: nat)

  datatype SchemeError =
    | MissingMetadata          // no `<metadata>` child: reading `firstChild` of undefined throws
    | MalformedMetadata        // `JSON.parse` (or the missing text node) throws
    | MissingTransformWrapper  // `getElementById` yields null: reading `transform` throws

  /** How `setScale` ends: it throws when there is no `transform-wrapper` element. */
  function TransformOutcome(wrapper: Option<Transform>): (o: Outcome<SchemeError>)
    ensures o == Pass <==> wrapper.Some?
    ensures o != Pass ==> o == Fail(MissingTransformWrapper)
  {
    if wrapper.Some? then Pass else Fail(MissingTransformWrapper)
  }

  /** Where `getElementsByTagName('metadata')[0]` is found among the children, if anywhere. */
  function FirstMetadata(children: seq<Element>): (i: Option<nat>)
    ensures i.Some? ==> i.value < |children| && children[i.value].MetadataElement?
    ensures i.Some? ==> forall j :: 0 <= j < i.value ==> !children[j].MetadataElement?
    ensures i.None? ==> forall j :: 0 <= j < |children| ==> !children[j].MetadataElement?
  {
    if children == [] then None
    else if children[0].MetadataElement? then Some(0)
    else match FirstMetadata(children[1..])
      case None => None
      case Some(k) => Some(k + 1)
  }

  /** What parsing the first `<metadata>` child gives. */
  function ReadMetadata(children: seq<Element>): (r: Result<Metadata, SchemeError>)
    ensures r == Failure(MissingMetadata) <==> forall j :: 0 <= j < |children| ==> !children[j].MetadataElement?
    ensures r.Success? ==> MetadataElement(Some(r.value)) in children
    ensures FirstMetadata(children).Some? ==> r.ToOption() == children[FirstMetadata(children).value].parsed
    ensures FirstMetadata(children).Some? && r.Failure? ==> r.error == MalformedMetadata
  {
    match FirstMetadata(children)
    case None => Failure(MissingMetadata)
    case Some(i) =>
      match children[i].parsed
      case None => Failure(MalformedMetadata)
      case Some(m) => Success(m)
  }

  /** The children after `removeChild` of the first `<metadata>` child. */
  function WithoutMetadata(children: seq<Element>): (rest: seq<Element>)
    ensures FirstMetadata(children).None? ==> rest == children
    ensures FirstMetadata(children).Some? ==> |rest| == |children| - 1
    ensures FirstMetadata(children).Some? ==>
              forall j :: 0 <= j < |rest| ==>
                rest[j] == if j < FirstMetadata(children).value then children[j] else children[j + 1]
  {
    match FirstMetadata(children)
    case None => children
    case Some(i) => children[..i] + children[i + 1..]
  }

  /** The drawing proper: the children that are not `<metadata>`, in document order. */
  function Artwork(children: seq<Element>): seq<Element>
  {
    if children == [] then []
    else if children[0].MetadataElement? then Artwork(children[1..])
    else [children[0]] + Artwork(children[1..])
  }

  function CountMetadata(children: seq<Element>): nat
  {
    if children == [] then 0
    else (if children[0].MetadataElement? then 1 else 0) + CountMetadata(children[1..])
  }

  lemma {:induction false} ArtworkAppend(a: seq<Element>, b: seq<Element>)
    ensures Artwork(a + b) == Artwork(a) + Artwork(b)
    ensures CountMetadata(a + b) == CountMetadata(a) + CountMetadata(b)
    decreases |a|
  {
    if a == [] {
      assert a + b == b;
    } else {
      assert (a + b)[0] == a[0] && (a + b)[1..] == a[1..] + b;
      ArtworkAppend(a[1..], b);
    }
  }

  /** Removing one `<metadata>` child, wherever it is, keeps the artwork. */
  lemma {:induction false} RemoveMetadataAt(children: seq<Element>, i: nat)
    requires i < |children| && children[i].MetadataElement?
    ensures Artwork(children[..i] + children[i + 1..]) == Artwork(children)
    ensures CountMetadata(children[..i] + children[i + 1..]) == CountMetadata(children) - 1
  {
    var pre, m, post := children[..i], children[i], children[i + 1..];
    assert children == pre + ([m] + post);
    assert [m] + post == [m] + post && ([m] + post)[0] == m && ([m] + post)[1..] == post;
    ArtworkAppend(pre, [m] + post);
    ArtworkAppend(pre, post);
  }

  /** Removing the metadata child takes away exactly one `<metadata>` element and leaves
      every other child in place and in order. */
  lemma WithoutMetadataKeepsArtwork(children: seq<Element>)
    requires FirstMetadata(children).Some?
    ensures Artwork(WithoutMetadata(children)) == Artwork(children)
    ensures CountMetadata(WithoutMetadata(children)) == CountMetadata(children) - 1
    ensures |WithoutMetadata(children)| == |children| - 1
  {
    RemoveMetadataAt(children, FirstMetadata(children).value);
  }

  /** The scheme's root SVG element: its children, the transform found under the
      `transform-wrapper` id (None when there is no such element), and the CSS size the
      layer gives it (None until set). */
  class SchemeNode {
    var children: seq<Element>
    const transformWrapper: Option<Transform>
    var width: Option<real>
    var height: Option<real>

    constructor (children: seq<Element>, transformWrapper: Option<Transform>)
      ensures this.children == children && this.transformWrapper == transformWrapper
      ensures width == None && height == None
    {
      this.children := children;
      this.transformWrapper := transformWrapper;
      width, height := None, None;
    }
  }

  function LookupTransform(wrapper: Option<Transform>): (r: Result<Transform, SchemeError>)
    ensures r.Success? <==> wrapper.Some?
    ensures r.Success? ==> wrapper == Some(r.value)
    ensures r.Failure? ==> r.error == MissingTransformWrapper
  {
    match wrapper
    case Some(t) => Success(t)
    case None => Failure(MissingTransformWrapper)
  }

  class Scheme {
    const node: SchemeNode
    /** The node's children as they were when the scheme was made. */
    ghost const original: seq<Element>
    var metadata: Option<Metadata>
    var transform: Option<Transform>
    var scale: real

    /** The caches only ever hold what the node yields: a filled metadata cache is the parse
        of the original first `<metadata>` child, which alone has been removed; an empty one
        means the children are untouched; a filled transform cache is the wrapper's transform. */
    ghost predicate Valid()
      reads this, node
    {
      && (metadata.None? ==> node.children == original)
      && (metadata.Some? ==> ReadMetadata(original) == Success(metadata.value) && node.children == WithoutMetadata(original))
      && (transform.Some? ==> transform == node.transformWrapper)
    }

    /** A fresh scheme has empty caches and scale 1. */
    constructor (node: SchemeNode)
      ensures this.node == node && original == node.children
      ensures metadata == None && transform == None && scale == 1.0
      ensures Valid()
    {
      this.node := node;
      original := node.children;
      metadata, transform := None, None;
      scale := 1.0;
    }

    /** Parses and removes the `<metadata>` child on the first successful call; every call
        yields the same answer, and a call after a success changes nothing. */
    method GetMetaData() returns (r: Result<Metadata, SchemeError>)
      requires Valid()
      modifies this`metadata, node`children
      ensures Valid()
      ensures r == ReadMetadata(original)
      ensures metadata == r.ToOption()
      ensures node.children == if r.Success? then WithoutMetadata(original) else original
      ensures old(metadata).Some? ==> metadata == old(metadata) && node.children == old(node.children)
    {
      if metadata.None? {
        var first := FirstMetadata(node.children);
        if first.None? {
          return Failure(MissingMetadata);
        }
        var i := first.value;
        var parsed := node.children[i].parsed;
        if parsed.None? {
          return Failure(MalformedMetadata);
        }
        metadata := parsed;
        node.children := node.children[..i] + node.children[i + 1..];
      }
      r := Success(metadata.value);
    }

    /** Looks the transform up on the first successful call and reuses it afterwards. */
    method GetTransform() returns (r: Result<Transform, SchemeError>)
      requires Valid()
      modifies this`transform
      ensures Valid()
      ensures r == LookupTransform(node.transformWrapper)
      ensures transform == node.transformWrapper
      ensures old(transform).Some? ==> transform == old(transform)
    {
      if transform.None? {
        transform := node.transformWrapper;
      }
      r := LookupTransform(transform);
    }

    /** Records the scale, then hands it to the transform; the scale is recorded even when
        the transform lookup then fails. */
    method SetScale(s: real) returns (o: Outcome<SchemeError>)
      requires Valid()
      modifies this`scale, this`transform
      ensures Valid()
      ensures scale == s
      ensures transform == node.transformWrapper
      ensures o == TransformOutcome(node.transformWrapper)
    {
      scale := s;
      var t := GetTransform();
      o := if t.Success? then Pass else Fail(t.error);
    }
  }
}
