/** The five structural cross-sections and their section properties
    (src/lib.rs). Every accessor is a total function: a single exhaustive
    match over the variants with no failure path. The f64 arithmetic is
    modelled on `real`, and `x.powi(n)` is written as the n-fold product
    of x. */
module StructuralShapes {

  /** `std::f64::consts::PI`, as the decimal that the f64 value prints as. */
  const Pi: real := 3.141592653589793

  /** A cross-section. All dimensions are lengths; the source does not
      validate them, so any reals are admitted. */
  datatype StructuralShape =
    | Pipe(outerRadius: real, thickness: real)
    | IBeam(width: real, height: real, webThickness: real, flangeThickness: real)
    | BoxBeam(width: real, height: real, thickness: real)
    | Rod(radius: real)
    | Rectangle(width: real, height: real)

  /** Second moment of area about the x-axis (`moment_of_inertia_x`). */
  function MomentOfInertiaX(s: StructuralShape): real {
    match s
    case Pipe(outer, t) =>
      Pi * (outer * outer * outer * outer - (outer - t) * (outer - t) * (outer - t) * (outer - t)) / 4.0
    case IBeam(w, h, web, flange) =>
      w * (h * h * h) / 12.0
        - 2.0 * ((w - web) / 2.0) * ((h - 2.0 * flange) * (h - 2.0 * flange) * (h - 2.0 * flange)) / 12.0
    case BoxBeam(w, h, t) => w * (h * h * h) / 12.0 - (w - t) * ((h - t) * (h - t) * (h - t)) / 12.0
    case Rod(radius) => Pi * (radius * radius * radius * radius) / 4.0
    case Rectangle(w, h) => w * (h * h * h) / 12.0
  }

  /** Second moment of area about the y-axis (`moment_of_inertia_y`): the
      round sections and the rectangle re-use the x-moment, the I-beam
      yields the constant 0, and the box beam's formula is the x-moment of
      the same box beam with width and height exchanged. */
  function MomentOfInertiaY(s: StructuralShape): (r: real)
    ensures s.Pipe? || s.Rod? || s.Rectangle? ==> r == MomentOfInertiaX(s)
    ensures s.IBeam? ==> r == 0.0
    ensures s.BoxBeam? ==> r == MomentOfInertiaX(BoxBeam(s.height, s.width, s.thickness))
  {
    match s
    case Pipe(_, _) => MomentOfInertiaX(s)
    case IBeam(_, _, _, _) => 0.0
    case BoxBeam(w, h, t) => h * (w * w * w) / 12.0 - (h - t) * ((w - t) * (w - t) * (w - t)) / 12.0
    case Rod(_) => MomentOfInertiaX(s)
    case Rectangle(_, _) => MomentOfInertiaX(s)
  }

  /** Cross-sectional area (`area`): outer minus inner for the hollow
      sections, a plain product or circle for the solid ones. */
  function Area(s: StructuralShape): real {
    match s
    case Pipe(outer, t) => Pi * (outer * outer - (outer - t) * (outer - t))
    case IBeam(w, h, web, flange) => w * h - (h - 2.0 * flange) * (w - web)
    case BoxBeam(w, h, t) => w * h - (w - t) * (h - t)
    case Rod(radius) => Pi * (radius * radius)
    case Rectangle(w, h) => w * h
  }
}
