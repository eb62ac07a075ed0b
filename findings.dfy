/** Three places where the section properties of src/lib.rs depart from
    what the crate evidently intends, each shown on a concrete shape, and
    corrected section properties with the intended behaviour proved. */
module Findings {
  import opened RealArith
  import opened StructuralShapes
  import opened WellFormedShapes

  /** As written, a rectangle's y-moment is its x-moment w·h³/12, so it
      does not follow the section through a quarter turn: the 2 × 1
      rectangle reports 2/12 about y, while the same section turned, the
      1 × 2 rectangle, reports 8/12 about x. */
  lemma RectangleYIgnoresQuarterTurn()
    ensures MomentOfInertiaY(Rectangle(2.0, 1.0)) == 2.0 / 12.0
    ensures MomentOfInertiaX(Rectangle(1.0, 2.0)) == 8.0 / 12.0
  {
  }

  /** As written, every I-beam has y-moment 0, even the one whose flanges
      fill its height and which has the x-moment of the solid 2 × 2
      rectangle; that rectangle's y-moment is 16/12. */
  lemma IBeamYIsZero()
    ensures MomentOfInertiaX(IBeam(2.0, 2.0, 1.0, 1.0)) == MomentOfInertiaX(Rectangle(2.0, 2.0))
    ensures MomentOfInertiaY(IBeam(2.0, 2.0, 1.0, 1.0)) == 0.0
    ensures MomentOfInertiaY(Rectangle(2.0, 2.0)) == 16.0 / 12.0
  {
  }

  /** As written, a box beam's inner opening is one wall thickness smaller
      than the outside, not two: the 3 × 3 box with unit walls has
      x-moment 65/12 rather than the 80/12 of the outer square less the
      1 × 1 opening, and the 2 × 2 box with unit walls, which is solid,
      has area 3 rather than 4. */
  lemma BoxBeamSubtractsOneWall()
    ensures MomentOfInertiaX(BoxBeam(3.0, 3.0, 1.0)) == 65.0 / 12.0
    ensures MomentOfInertiaX(Rectangle(3.0, 3.0)) - MomentOfInertiaX(Rectangle(1.0, 1.0)) == 80.0 / 12.0
    ensures Area(BoxBeam(2.0, 2.0, 1.0)) == 3.0
    ensures Area(Rectangle(2.0, 2.0)) == 4.0
  {
  }

  /** Area with the box beam's opening (w - 2t) × (h - 2t). */
  function CorrectedArea(s: StructuralShape): (r: real)
    ensures !s.BoxBeam? ==> r == Area(s)
    ensures s.BoxBeam? ==>
              r == Area(Rectangle(s.width, s.height))
                 - Area(Rectangle(s.width - 2.0 * s.thickness, s.height - 2.0 * s.thickness))
  {
    match s
    case BoxBeam(w, h, t) => w * h - (w - 2.0 * t) * (h - 2.0 * t)
    case _ => Area(s)
  }

  /** X-moment with the box beam's opening (w - 2t) × (h - 2t). */
  function CorrectedMomentOfInertiaX(s: StructuralShape): (r: real)
    ensures !s.BoxBeam? ==> r == MomentOfInertiaX(s)
    ensures s.BoxBeam? ==>
              r == MomentOfInertiaX(Rectangle(s.width, s.height))
                 - MomentOfInertiaX(Rectangle(s.width - 2.0 * s.thickness, s.height - 2.0 * s.thickness))
  {
    match s
    case BoxBeam(w, h, t) =>
      w * (h * h * h) / 12.0 - (w - 2.0 * t) * ((h - 2.0 * t) * (h - 2.0 * t) * (h - 2.0 * t)) / 12.0
    case _ => MomentOfInertiaX(s)
  }

  /** Y-moment as the section turned a quarter turn: the rectangle and the
      box beam swap width and height, and the I-beam is its two flanges
      standing on edge plus its web lying flat. */
  function CorrectedMomentOfInertiaY(s: StructuralShape): (r: real)
    ensures s.Pipe? || s.Rod? ==> r == MomentOfInertiaY(s)
    ensures s.Rectangle? ==> r == CorrectedMomentOfInertiaX(Rectangle(s.height, s.width))
    ensures s.BoxBeam? ==> r == CorrectedMomentOfInertiaX(BoxBeam(s.height, s.width, s.thickness))
  {
    match s
    case Pipe(_, _) => MomentOfInertiaY(s)
    case IBeam(w, h, web, flange) =>
      2.0 * flange * (w * w * w) / 12.0 + (h - 2.0 * flange) * (web * web * web) / 12.0
    case BoxBeam(w, h, t) =>
      h * (w * w * w) / 12.0 - (h - 2.0 * t) * ((w - 2.0 * t) * (w - 2.0 * t) * (w - 2.0 * t)) / 12.0
    case Rod(_) => MomentOfInertiaY(s)
    case Rectangle(w, h) => h * (w * w * w) / 12.0
  }

  /** The corrected box beam is the outer rectangle less the opening
      (w - 2t) × (h - 2t), about both axes and in area. */
  lemma CorrectedBoxBeamIsRectangleDifference(w: real, h: real, t: real)
    ensures CorrectedArea(BoxBeam(w, h, t)) == Area(Rectangle(w, h)) - Area(Rectangle(w - 2.0 * t, h - 2.0 * t))
    ensures CorrectedMomentOfInertiaX(BoxBeam(w, h, t))
         == CorrectedMomentOfInertiaX(Rectangle(w, h)) - CorrectedMomentOfInertiaX(Rectangle(w - 2.0 * t, h - 2.0 * t))
    ensures CorrectedMomentOfInertiaY(BoxBeam(w, h, t))
         == CorrectedMomentOfInertiaY(Rectangle(w, h)) - CorrectedMomentOfInertiaY(Rectangle(w - 2.0 * t, h - 2.0 * t))
  {
  }

  /** The corrected 3 × 3 box with unit walls has the 80/12 of the 3 × 3
      square less its 1 × 1 opening about both axes, and the 2 × 2 box
      with unit walls is solid. */
  lemma CorrectedBoxBeamClosedForms()
    ensures CorrectedMomentOfInertiaX(BoxBeam(3.0, 3.0, 1.0)) == 80.0 / 12.0
    ensures CorrectedMomentOfInertiaY(BoxBeam(3.0, 3.0, 1.0)) == 80.0 / 12.0
    ensures CorrectedArea(BoxBeam(2.0, 2.0, 1.0)) == Area(Rectangle(2.0, 2.0))
  {
  }

  /** A corrected box beam has the area of the solid rectangle exactly
      when its two walls meet across the width or across the height. */
  lemma CorrectedBoxBeamSolidIff(w: real, h: real, t: real)
    ensures CorrectedArea(BoxBeam(w, h, t)) == Area(Rectangle(w, h)) <==> 2.0 * t == w || 2.0 * t == h
  {
    ProductZeroIff(w - 2.0 * t, h - 2.0 * t);
  }

  /** The same holds of its x-moment. */
  lemma CorrectedBoxBeamMomentSolidIff(w: real, h: real, t: real)
    ensures CorrectedMomentOfInertiaX(BoxBeam(w, h, t)) == MomentOfInertiaX(Rectangle(w, h))
        <==> 2.0 * t == w || 2.0 * t == h
  {
    var a, b := w - 2.0 * t, h - 2.0 * t;
    var b3 := b * b * b;
    assert MomentOfInertiaX(Rectangle(w, h)) - CorrectedMomentOfInertiaX(BoxBeam(w, h, t)) == a * b3 / 12.0;
    ProductZeroIff(a, b3);
    CubeZeroIff(b);
  }

  /** The corrected rectangle has equal moments about both axes exactly
      when it is square or has no extent. */
  lemma CorrectedRectangleMomentsEqualIff(w: real, h: real)
    ensures CorrectedMomentOfInertiaX(Rectangle(w, h)) == CorrectedMomentOfInertiaY(Rectangle(w, h))
        <==> w == h || w == 0.0 || h == 0.0 || w == -h
  {
    assert 12.0 * (CorrectedMomentOfInertiaX(Rectangle(w, h)) - CorrectedMomentOfInertiaY(Rectangle(w, h)))
        == (w * h) * ((h - w) * (h + w));
    ProductZeroIff(w * h, (h - w) * (h + w));
    ProductZeroIff(w, h);
    ProductZeroIff(h - w, h + w);
  }

  /** The corrected I-beam has the y-moment of the solid rectangle of its
      width and height exactly when its web fills the width or its flanges
      fill the height, as its x-moment does. */
  lemma CorrectedIBeamIsRectangleIff(w: real, h: real, web: real, flange: real)
    ensures CorrectedMomentOfInertiaY(IBeam(w, h, web, flange)) == CorrectedMomentOfInertiaY(Rectangle(w, h))
        <==> web == w || 2.0 * flange == h
  {
    var d := h - 2.0 * flange;
    assert 12.0 * (CorrectedMomentOfInertiaY(IBeam(w, h, web, flange)) - CorrectedMomentOfInertiaY(Rectangle(w, h)))
        == d * (web * web * web - w * w * w);
    ProductZeroIff(d, web * web * web - w * w * w);
    CubesEqualIff(web, w);
  }

  /** Well-formed shapes with the box beam's two walls fitting inside it. */
  predicate CorrectedWellFormed(s: StructuralShape) {
    match s
    case Pipe(outer, t) => 0.0 <= t <= outer
    case IBeam(w, h, web, flange) => 0.0 <= web <= w && 0.0 <= 2.0 * flange <= h
    case BoxBeam(w, h, t) => 0.0 <= t && 2.0 * t <= w && 2.0 * t <= h
    case Rod(r) => 0.0 <= r
    case Rectangle(w, h) => 0.0 <= w && 0.0 <= h
  }

  /** The corrected properties of such shapes are non-negative, and an
      I-beam with flanges and width has a positive y-moment. */
  lemma {:induction false} CorrectedPropertiesNonNegative(s: StructuralShape)
    requires CorrectedWellFormed(s)
    ensures 0.0 <= CorrectedArea(s)
    ensures 0.0 <= CorrectedMomentOfInertiaX(s)
    ensures 0.0 <= CorrectedMomentOfInertiaY(s)
    ensures s.IBeam? && 0.0 < s.width && 0.0 < s.flangeThickness ==> 0.0 < CorrectedMomentOfInertiaY(s)
  {
    match s
    case Pipe(outer, t) => PipeNonNegative(outer, t);
    case IBeam(w, h, web, flange) => CorrectedIBeamNonNegative(w, h, web, flange);
    case BoxBeam(w, h, t) => CorrectedBoxBeamNonNegative(w, h, t);
    case Rod(radius) => PipeNonNegative(radius, radius);
    case Rectangle(w, h) => CorrectedRectangleNonNegative(w, h);
  }

  lemma CorrectedIBeamNonNegative(w: real, h: real, web: real, flange: real)
    requires 0.0 <= web <= w && 0.0 <= 2.0 * flange <= h
    ensures 0.0 <= CorrectedArea(IBeam(w, h, web, flange))
    ensures 0.0 <= CorrectedMomentOfInertiaX(IBeam(w, h, web, flange))
    ensures 0.0 <= CorrectedMomentOfInertiaY(IBeam(w, h, web, flange))
    ensures 0.0 < w && 0.0 < flange ==> 0.0 < CorrectedMomentOfInertiaY(IBeam(w, h, web, flange))
  {
    WellFormedPropertiesNonNegative(IBeam(w, h, web, flange));
    CorrectedIBeamYNonNegative(w, h, web, flange);
  }

  lemma CorrectedIBeamYNonNegative(w: real, h: real, web: real, flange: real)
    requires 0.0 <= web <= w && 0.0 <= 2.0 * flange <= h
    ensures 0.0 <= CorrectedMomentOfInertiaY(IBeam(w, h, web, flange))
    ensures 0.0 < w && 0.0 < flange ==> 0.0 < CorrectedMomentOfInertiaY(IBeam(w, h, web, flange))
  {
    var flanges := 2.0 * flange * (w * w * w) / 12.0;
    var webPart := (h - 2.0 * flange) * (web * web * web) / 12.0;
    assert CorrectedMomentOfInertiaY(IBeam(w, h, web, flange)) == flanges + webPart;
    assert 0.0 <= w * w && 0.0 <= w * w * w;
    assert 0.0 <= web * web && 0.0 <= web * web * web;
    assert 0.0 <= webPart;
    assert 0.0 <= flanges;
    if 0.0 < w && 0.0 < flange {
      assert 0.0 < w * w && 0.0 < w * w * w;
      assert 0.0 < flanges;
    }
  }

  lemma CorrectedRectangleNonNegative(w: real, h: real)
    requires 0.0 <= w && 0.0 <= h
    ensures 0.0 <= CorrectedArea(Rectangle(w, h))
    ensures 0.0 <= CorrectedMomentOfInertiaX(Rectangle(w, h))
    ensures 0.0 <= CorrectedMomentOfInertiaY(Rectangle(w, h))
  {
    assert 0.0 <= w * h;
    assert 0.0 <= h * h * h && 0.0 <= w * (h * h * h);
    assert 0.0 <= w * w * w && 0.0 <= h * (w * w * w);
  }

  lemma CorrectedBoxBeamNonNegative(w: real, h: real, t: real)
    requires 0.0 <= t && 2.0 * t <= w && 2.0 * t <= h
    ensures 0.0 <= CorrectedArea(BoxBeam(w, h, t))
    ensures 0.0 <= CorrectedMomentOfInertiaX(BoxBeam(w, h, t))
    ensures 0.0 <= CorrectedMomentOfInertiaY(BoxBeam(w, h, t))
  {
    var u := 2.0 * t;
    HollowRectangleNonNegative(w, h, u);
    HollowRectangleNonNegative(h, w, u);
  }
}
