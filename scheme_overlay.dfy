/** The map layer that shows the scheme (`SchemeLayer`): it fits the artwork into the pane
    it is added to and sizes the scheme node at that scale. */
module SchemeOverlay {
  import opened Wrappers
  import opened SchemeDoc

  function Min(a: real, b: real): real
  {
    if a <= b then a else b
  }

  /** `Math.min(clientWidth / width, clientHeight / height)` over exact reals. */
  function FitScale(paneWidth: nat, paneHeight: nat, m: Metadata): (s: real)
    ensures s >= 0.0
  {
    Min(paneWidth as real / m.width, paneHeight as real / m.height)
  }

  /** A width and height that fit a pane in both dimensions and fill it in at least one. */
  predicate FillsPane(width: real, height: real, paneWidth: nat, paneHeight: nat)
  {
    && width <= paneWidth as real && height <= paneHeight as real
    && (width == paneWidth as real || height == paneHeight as real)
  }

  /** At the fit scale the artwork fits the pane in both dimensions and fills it in one. */
  lemma FitScaleFits(paneWidth: nat, paneHeight: nat, m: Metadata)
    ensures FillsPane(FitScale(paneWidth, paneHeight, m) * m.width, FitScale(paneWidth, paneHeight, m) * m.height,
                      paneWidth, paneHeight)
  {
    var w, h := paneWidth as real, paneHeight as real;
    var sw, sh := w / m.width, h / m.height;
    assert sw * m.width == w;
    assert sh * m.height == h;
    if sw <= sh {
      assert sw * m.height <= sh * m.height by { MulMonotone(sw, sh, m.height); }
    } else {
      assert sh * m.width <= sw * m.width by { MulMonotone(sh, sw, m.width); }
    }
  }

  /** A node sized at the fit scale fills the pane. */
  lemma FitSizeFills(paneWidth: nat, paneHeight: nat, m: Metadata, s: real, width: real, height: real)
    requires s == FitScale(paneWidth, paneHeight, m) && width == s * m.width && height == s * m.height
    ensures FillsPane(width, height, paneWidth, paneHeight)
  {
    FitScaleFits(paneWidth, paneHeight, m);
  }

  /** A uniform scale fits the artwork in the pane exactly when it is at most the fit scale:
      the fit scale is the largest scale that fits. */
  lemma FitScaleIsLargest(paneWidth: nat, paneHeight: nat, m: Metadata, t: real)
    ensures t * m.width <= paneWidth as real && t * m.height <= paneHeight as real
        <==> t <= FitScale(paneWidth, paneHeight, m)
  {
    var w, h := paneWidth as real, paneHeight as real;
    var sw, sh := w / m.width, h / m.height;
    assert sw * m.width == w;
    assert sh * m.height == h;
    MulMonotoneIff(t, sw, m.width);
    MulMonotoneIff(t, sh, m.height);
  }

  lemma MulMonotone(a: real, b: real, c: real)
    requires a <= b && c > 0.0
    ensures a * c <= b * c
  {
  }

  lemma MulMonotoneIff(a: real, b: real, c: real)
    requires c > 0.0
    ensures a * c <= b * c <==> a <= b
  {
    if a <= b {
      MulMonotone(a, b, c);
    } else {
      assert (a - b) * c > 0.0;
    }
  }

  class SchemeLayer {
    const scheme: Scheme
    /** The layer's scale; undefined until the layer is added to a map. */
    var scale: Option<real>

    constructor (scheme: Scheme)
      ensures this.scheme == scheme && scale == None
    {
      this.scheme := scheme;
      scale := None;
    }

    /** The fit scale for a pane of the given client size, from the scheme's metadata. */
    method CalculateFitScale(paneWidth: nat, paneHeight: nat) returns (r: Result<real, SchemeError>)
      requires scheme.Valid()
      modifies scheme`metadata, scheme.node`children
      ensures scheme.Valid() && scheme.metadata == ReadMetadata(scheme.original).ToOption()
      ensures r == match ReadMetadata(scheme.original)
                   case Success(m) => Success(FitScale(paneWidth, paneHeight, m))
                   case Failure(e) => Failure(e)
    {
      var metadata := scheme.GetMetaData();
      if metadata.Failure? {
        return Failure(metadata.error);
      }
      r := Success(FitScale(paneWidth, paneHeight, metadata.value));
    }

    /** The node shows the artwork at the layer's scale, and the scheme has recorded that
        scale and looked its transform up. */
    ghost predicate SizedTo(m: Metadata)
      reads this, scheme, scheme.node
    {
      && scale.Some?
      && scheme.node.width.Some? && scheme.node.width.value == scale.value * m.width
      && scheme.node.height.Some? && scheme.node.height.value == scale.value * m.height
      && scheme.scale == scale.value
      && scheme.transform == scheme.node.transformWrapper
    }

    /** Sizes the node to the layer's scale times the native size, then pushes that scale
        into the scheme. */
    method Update() returns (o: Outcome<SchemeError>)
      requires scale.Some? && scheme.Valid()
      modifies scheme`metadata, scheme`transform, scheme`scale, scheme.node
      ensures scheme.Valid() && scheme.metadata == ReadMetadata(scheme.original).ToOption()
      ensures match ReadMetadata(scheme.original)
              case Failure(e) =>
                && o == Fail(e)
                && scheme.node.width == old(scheme.node.width) && scheme.node.height == old(scheme.node.height)
                && scheme.scale == old(scheme.scale) && scheme.transform == old(scheme.transform)
              case Success(m) =>
                && SizedTo(m)
                && o == TransformOutcome(scheme.node.transformWrapper)
    {
      var node, s := scheme.node, scale.value;
      var metadata := scheme.GetMetaData();
      if metadata.Failure? {
        return Fail(metadata.error);
      }
      var m := metadata.value;
      node.width := Some(s * m.width);
      node.height := Some(s * m.height);
      o := scheme.SetScale(s);
    }

    /** Adding the layer to a map whose pane has the given client size: the layer takes the
        fit scale and is updated. That the artwork then fits the pane and fills one dimension
        follows from `SizedTo` by `FitSizeFills`. */
    method OnAddToMap(paneWidth: nat, paneHeight: nat) returns (o: Outcome<SchemeError>)
      requires scheme.Valid()
      modifies this`scale, scheme`metadata, scheme`transform, scheme`scale, scheme.node
      ensures scheme.Valid() && scheme.metadata == ReadMetadata(scheme.original).ToOption()
      ensures match ReadMetadata(scheme.original)
              case Failure(e) =>
                && o == Fail(e)
                && scale == old(scale)
                && scheme.node.width == old(scheme.node.width) && scheme.node.height == old(scheme.node.height)
                && scheme.scale == old(scheme.scale) && scheme.transform == old(scheme.transform)
              case Success(m) =>
                && scale == Some(FitScale(paneWidth, paneHeight, m))
                && SizedTo(m)
                && o == TransformOutcome(scheme.node.transformWrapper)
    {
      var fit := CalculateFitScale(paneWidth, paneHeight);
      if fit.Failure? {
        assert ReadMetadata(scheme.original) == Failure(fit.error);
        return Fail(fit.error);
      }
      ghost var m := scheme.metadata.value;
      assert ReadMetadata(scheme.original) == Success(m);
      var s := fit.value;
      assert s == FitScale(paneWidth, paneHeight, m);
      scale := Some(s);
      o := Update();
    }
  }
}
