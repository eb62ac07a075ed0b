/** Identities relating the accessors of src/lib.rs across variants: the
    shapes one variant collapses to, the axis symmetry of the box beam, and
    the sign of the hollow sections' properties. */
module ShapeProperties {
  import opened RealArith
  import opened StructuralShapes

  /** A pipe is the rod of its outer radius with the rod of its inner
      radius removed, in area and about both axes. */
  lemma PipeIsRodDifference(outer: real, t: real)
    ensures Area(Pipe(outer, t)) == Area(Rod(outer)) - Area(Rod(outer - t))
    ensures MomentOfInertiaX(Pipe(outer, t)) == MomentOfInertiaX(Rod(outer)) - MomentOfInertiaX(Rod(outer - t))
    ensures MomentOfInertiaY(Pipe(outer, t)) == MomentOfInertiaY(Rod(outer)) - MomentOfInertiaY(Rod(outer - t))
  {
  }

  /** An I-beam is the rectangle of its width and height with the two
      side openings beside the web removed; together those are one
      rectangle (width - web) by (height - 2 flange). */
  lemma IBeamIsRectangleDifference(w: real, h: real, web: real, flange: real)
    ensures Area(IBeam(w, h, web, flange)) == Area(Rectangle(w, h)) - Area(Rectangle(w - web, h - 2.0 * flange))
    ensures MomentOfInertiaX(IBeam(w, h, web, flange))
         == MomentOfInertiaX(Rectangle(w, h)) - MomentOfInertiaX(Rectangle(w - web, h - 2.0 * flange))
  {
  }

  /** A box beam, as the source computes it, is the rectangle of its width
      and height with a rectangle one thickness narrower and one thickness
      lower removed. */
  lemma BoxBeamIsRectangleDifference(w: real, h: real, t: real)
    ensures Area(BoxBeam(w, h, t)) == Area(Rectangle(w, h)) - Area(Rectangle(w - t, h - t))
    ensures MomentOfInertiaX(BoxBeam(w, h, t)) == MomentOfInertiaX(Rectangle(w, h)) - MomentOfInertiaX(Rectangle(w - t, h - t))
    ensures MomentOfInertiaY(BoxBeam(w, h, t))
         == MomentOfInertiaX(Rectangle(h, w)) - MomentOfInertiaX(Rectangle(h - t, w - t))
  {
  }

  /** A pipe has the area of a solid rod of its outer radius exactly when
      its wall is as thick as the radius. */
  lemma PipeAreaIsRodIff(outer: real, t: real)
    ensures Area(Pipe(outer, t)) == Area(Rod(outer)) <==> t == outer
  {
    var i := outer - t;
    assert Area(Rod(outer)) - Area(Pipe(outer, t)) == Pi * (i * i);
    PositiveFactorKeepsSign(Pi, i * i);
    ProductZeroIff(i, i);
  }

  /** A pipe has the x-moment (and so the y-moment) of a solid rod of its
      outer radius exactly when its wall is as thick as the radius. */
  lemma PipeMomentIsRodIff(outer: real, t: real)
    ensures MomentOfInertiaX(Pipe(outer, t)) == MomentOfInertiaX(Rod(outer)) <==> t == outer
    ensures MomentOfInertiaY(Pipe(outer, t)) == MomentOfInertiaY(Rod(outer)) <==> t == outer
  {
    var i := outer - t;
    assert MomentOfInertiaX(Rod(outer)) - MomentOfInertiaX(Pipe(outer, t)) == Pi / 4.0 * (i * i * i * i);
    PositiveFactorKeepsSign(Pi / 4.0, i * i * i * i);
    FourthPowerZeroIff(i);
  }

  /** An I-beam has the area of the solid rectangle of its width and
      height exactly when its web fills the width or its flanges fill the
      height. */
  lemma IBeamAreaIsRectangleIff(w: real, h: real, web: real, flange: real)
    ensures Area(IBeam(w, h, web, flange)) == Area(Rectangle(w, h)) <==> web == w || 2.0 * flange == h
  {
    ProductZeroIff(h - 2.0 * flange, w - web);
  }

  /** The same holds of the x-moment. */
  lemma IBeamMomentIsRectangleIff(w: real, h: real, web: real, flange: real)
    ensures MomentOfInertiaX(IBeam(w, h, web, flange)) == MomentOfInertiaX(Rectangle(w, h))
        <==> web == w || 2.0 * flange == h
  {
    var d, g := h - 2.0 * flange, w - web;
    var d3 := d * d * d;
    assert MomentOfInertiaX(Rectangle(w, h)) - MomentOfInertiaX(IBeam(w, h, web, flange)) == g * d3 / 12.0;
    ProductZeroIff(g, d3);
    CubeZeroIff(d);
  }

  /** A box beam's area is t·(width + height - t), so it vanishes exactly
      when the wall has no thickness or is as thick as width and height
      together. */
  lemma BoxBeamAreaZeroIff(w: real, h: real, t: real)
    ensures Area(BoxBeam(w, h, t)) == t * (w + h - t)
    ensures Area(BoxBeam(w, h, t)) == 0.0 <==> t == 0.0 || t == w + h
  {
    assert Area(BoxBeam(w, h, t)) == t * (w + h - t);
    ProductZeroIff(t, w + h - t);
  }

  /** A box beam of zero wall thickness has no area and no moments. */
  lemma BoxBeamZeroThickness(w: real, h: real)
    ensures Area(BoxBeam(w, h, 0.0)) == 0.0
    ensures MomentOfInertiaX(BoxBeam(w, h, 0.0)) == 0.0
    ensures MomentOfInertiaY(BoxBeam(w, h, 0.0)) == 0.0
  {
  }

  /** Exchanging width and height exchanges a box beam's two moments, so a
      square box beam has equal moments. */
  lemma BoxBeamAxisSwap(w: real, h: real, t: real)
    ensures MomentOfInertiaX(BoxBeam(w, h, t)) == MomentOfInertiaY(BoxBeam(h, w, t))
    ensures MomentOfInertiaX(BoxBeam(w, w, t)) == MomentOfInertiaY(BoxBeam(w, w, t))
  {
  }

  /** A well-formed box beam with a wall of positive thickness has equal
      x- and y-moments exactly when it is square. */
  lemma BoxBeamMomentsEqualIffSquare(w: real, h: real, t: real)
    requires 0.0 < t && t <= w && t <= h
    ensures MomentOfInertiaX(BoxBeam(w, h, t)) == MomentOfInertiaY(BoxBeam(w, h, t)) <==> w == h
  {
    var a, b := w - t, h - t;
    var gap := (w * h) * (w + h) - (a * b) * (a + b);
    HollowMomentsDifference(w, h, t);
    OuterExceedsInner(w, h, t);
    PositiveFactorKeepsSign(gap, h - w);
  }

  /** Twelve times the difference of a box beam's two moment formulas is
      (h - w)·(w·h·(w + h) - a·b·(a + b)) over the inner sides a, b. */
  lemma HollowMomentsDifference(w: real, h: real, t: real)
    ensures (w * (h * h * h) / 12.0 - (w - t) * ((h - t) * (h - t) * (h - t)) / 12.0)
          - (h * (w * w * w) / 12.0 - (h - t) * ((w - t) * (w - t) * (w - t)) / 12.0)
         == (h - w) * ((w * h) * (w + h) - ((w - t) * (h - t)) * ((w - t) + (h - t))) / 12.0
  {
  }

  /** For a wall of positive thickness, w·h·(w + h) of the outer rectangle
      exceeds that of the inner one. */
  lemma OuterExceedsInner(w: real, h: real, t: real)
    requires 0.0 < t && t <= w && t <= h
    ensures 0.0 < (w * h) * (w + h) - ((w - t) * (h - t)) * ((w - t) + (h - t))
  {
    var a, b := w - t, h - t;
    assert 0.0 <= a * b <= w * b <= w * h;
    assert 0.0 < w * h;
    assert (a * b) * (a + b) <= (w * h) * (a + b) < (w * h) * (w + h);
  }

  /** A pipe's area is pi·t·(2·outer - t): it is non-negative exactly when
      the wall thickness lies between 0 and the outer diameter. */
  lemma PipeAreaNonNegativeIff(outer: real, t: real)
    ensures Area(Pipe(outer, t)) == Pi * (t * (2.0 * outer - t))
    ensures 0.0 <= Area(Pipe(outer, t)) <==> 0.0 <= t <= 2.0 * outer || 2.0 * outer <= t <= 0.0
  {
    var q := t * (2.0 * outer - t);
    assert Area(Pipe(outer, t)) == Pi * q;
    PositiveFactorKeepsSign(Pi, q);
    ProductNonNegativeIff(t, 2.0 * outer - t);
  }

  /** Closed forms of small sections, worked by hand from the formulas. */
  lemma SmallSectionClosedForms()
    ensures MomentOfInertiaX(Rod(1.0)) == Pi / 4.0
    ensures MomentOfInertiaX(Rectangle(2.0, 2.0)) == 16.0 / 12.0
    ensures MomentOfInertiaX(Pipe(2.0, 1.0)) == 15.0 * Pi / 4.0
    ensures MomentOfInertiaX(IBeam(2.0, 2.0, 1.0, 1.0)) == MomentOfInertiaX(Rectangle(2.0, 2.0))
  {
  }
}
