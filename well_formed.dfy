/** The geometric side conditions the source leaves unchecked, and the
    non-negativity of every section property under them. */
module WellFormedShapes {
  import opened RealArith
  import opened StructuralShapes

  /** The shape is a real section: no dimension is negative and nothing
      subtracted exceeds what it is subtracted from (the box beam's inner
      opening is width - thickness by height - thickness, as its formulas
      have it). */
  predicate WellFormed(s: StructuralShape) {
    match s
    case Pipe(outer, t) => 0.0 <= t <= outer
    case IBeam(w, h, web, flange) => 0.0 <= web <= w && 0.0 <= 2.0 * flange <= h
    case BoxBeam(w, h, t) => 0.0 <= t && t <= w && t <= h
    case Rod(r) => 0.0 <= r
    case Rectangle(w, h) => 0.0 <= w && 0.0 <= h
  }

  /** Area and both moments of a well-formed shape are non-negative. */
  lemma {:induction false} WellFormedPropertiesNonNegative(s: StructuralShape)
    requires WellFormed(s)
    ensures 0.0 <= Area(s)
    ensures 0.0 <= MomentOfInertiaX(s)
    ensures 0.0 <= MomentOfInertiaY(s)
  {
    match s
    case Pipe(outer, t) => PipeNonNegative(outer, t);
    case IBeam(w, h, web, flange) =>
      IBeamAreaNonNegative(w, h, web, flange);
      IBeamMomentNonNegative(w, h, web, flange);
    case BoxBeam(w, h, t) =>
      HollowRectangleNonNegative(w, h, t);
      HollowRectangleNonNegative(h, w, t);
    case Rod(radius) => PipeNonNegative(radius, radius);
    case Rectangle(_, _) =>
  }

  lemma PipeNonNegative(outer: real, t: real)
    requires 0.0 <= t <= outer
    ensures 0.0 <= outer * outer - (outer - t) * (outer - t)
    ensures 0.0 <= outer * outer * outer * outer - (outer - t) * (outer - t) * (outer - t) * (outer - t)
  {
    var i := outer - t;
    assert i * i <= outer * i <= outer * outer;
    assert i * i * i <= outer * i * i <= outer * outer * i <= outer * outer * outer;
    assert 0.0 <= i * i * i;
    assert i * i * i * i <= outer * outer * outer * i <= outer * outer * outer * outer;
  }

  lemma IBeamAreaNonNegative(w: real, h: real, web: real, flange: real)
    requires 0.0 <= web <= w && 0.0 <= 2.0 * flange <= h
    ensures 0.0 <= w * h - (h - 2.0 * flange) * (w - web)
  {
    var d, g := h - 2.0 * flange, w - web;
    assert d * g <= h * g <= h * w;
  }

  lemma IBeamMomentNonNegative(w: real, h: real, web: real, flange: real)
    requires 0.0 <= web <= w && 0.0 <= 2.0 * flange <= h
    ensures 0.0 <= w * (h * h * h) / 12.0
        - 2.0 * ((w - web) / 2.0) * ((h - 2.0 * flange) * (h - 2.0 * flange) * (h - 2.0 * flange)) / 12.0
  {
    var d, g := h - 2.0 * flange, w - web;
    var d3 := d * d * d;
    assert d * d <= h * d <= h * h;
    assert d3 <= h * h * d <= h * h * h;
    assert 0.0 <= d3;
    assert g * d3 <= w * d3 <= w * (h * h * h);
    assert 2.0 * (g / 2.0) * d3 == g * d3;
  }

  lemma HollowRectangleNonNegative(w: real, h: real, t: real)
    requires 0.0 <= t && t <= w && t <= h
    ensures 0.0 <= w * h - (w - t) * (h - t)
    ensures 0.0 <= w * (h * h * h) / 12.0 - (w - t) * ((h - t) * (h - t) * (h - t)) / 12.0
  {
    var a, b := w - t, h - t;
    assert a * b <= w * b <= w * h;
    assert b * b <= h * b <= h * h;
    assert b * b * b <= h * h * b <= h * h * h;
    assert 0.0 <= b * b * b;
    assert a * (b * b * b) <= w * (b * b * b) <= w * (h * h * h);
  }
}
