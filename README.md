# structural-shapes in Dafny

This project models the core of the `structural-shapes` crate (`src/lib.rs`) and proves properties about it. The crate defines the `StructuralShape` enum with five cross-sections:
- `Pipe`
- `IBeam`
- `BoxBeam`
- `Rod`
- `Rectangle`

It also defines three accessors on the enum:
- `moment_of_inertia_x`, the second moment of area about the x-axis;
- `moment_of_inertia_y`, the same about the y-axis;
- `area`.

Each accessor is a single exhaustive `match` returning a closed-form polynomial in the shape's dimensions. The code is pure, so the model is pure too:
- a `datatype` with five constructors over `real` fields;
- three total functions with no precondition, so every variant yields a value;
- lemmas relating the functions.

Modules:

- `StructuralShapes` (`structural_shapes.dfy`): the datatype, `Pi`, and `MomentOfInertiaX`, `MomentOfInertiaY` and `Area`. These are written exactly as the code has them, quirks included. `x.powi(n)` is written as the n-fold product of `x`.
- `ShapeProperties` (`shape_properties.dfy`): identities across variants.
  - Each hollow section is a solid one with a smaller solid removed.
  - When a pipe, an I-beam or a box beam collapses to a rod, a rectangle or nothing.
  - The box beam's axis swap and its square case.
  - The sign of the pipe's area.
- `WellFormedShapes` (`well_formed.dfy`): the geometric side conditions the code never checks, and the non-negativity of every property under them.
- `Findings` (`findings.dfy`): three places where the code departs from the section it evidently describes. Each is shown on a concrete shape, next to a corrected definition with the intended property proved. The rest of the model keeps the formulas as written, because those are what the crate computes.
- `RealArith` (`real_arith.dfy`): facts about real products used by the proofs.

## Model

| member | source | states |
|---|---|---|
| StructuralShapes.MomentOfInertiaY | src/lib.rs:99-114 | For `Pipe`, `Rod` and `Rectangle` the y-moment is the x-moment. For `IBeam` it is 0. For `BoxBeam` it is the x-moment of the same box beam with width and height exchanged. |
| ShapeProperties.PipeIsRodDifference | src/lib.rs:61-67 | A pipe's x-moment is the rod of its outer radius less the rod of radius `outer - t`. The same holds for its area (line 127) and its y-moment (line 101). |
| ShapeProperties.IBeamIsRectangleDifference | src/lib.rs:68-79 | An I-beam's x-moment and area (line 133) are those of the `w × h` rectangle less one `(w - web) × (h - 2·flange)` rectangle. That rectangle is the two side openings beside the web. |
| ShapeProperties.BoxBeamIsRectangleDifference | src/lib.rs:80-87 | A box beam's x-moment is the `w × h` rectangle less the `(w - t) × (h - t)` rectangle. The same holds for its area (line 138). Its y-moment (lines 108-109) is the turned rectangle less the turned opening. |
| ShapeProperties.PipeAreaIsRodIff | src/lib.rs:124-127 | A pipe has the area of the rod of its outer radius (line 139) if and only if `thickness == outer_radius`. |
| ShapeProperties.PipeMomentIsRodIff | src/lib.rs:61-67 | A pipe has the x- and y-moments of the rod of its outer radius (line 88) if and only if `thickness == outer_radius`. |
| ShapeProperties.IBeamAreaIsRectangleIff | src/lib.rs:128-133 | An I-beam has the area of the `w × h` rectangle (line 140) if and only if `web == width` or `2·flange == height`. |
| ShapeProperties.IBeamMomentIsRectangleIff | src/lib.rs:68-79 | An I-beam has the x-moment of the `w × h` rectangle (line 89) if and only if `web == width` or `2·flange == height`. |
| ShapeProperties.BoxBeamAreaZeroIff | src/lib.rs:134-138 | A box beam's area is `t·(w + h - t)`, so it is zero if and only if `t == 0` or `t == w + h`. |
| ShapeProperties.BoxBeamZeroThickness | src/lib.rs:80-87 | A box beam with zero thickness has area 0 (line 138) and both moments 0 (lines 108-109). |
| ShapeProperties.BoxBeamAxisSwap | src/lib.rs:103-110 | Exchanging a box beam's width and height turns its x-moment (lines 85-86) into its y-moment. A square box beam has equal moments. |
| ShapeProperties.BoxBeamMomentsEqualIffSquare | src/lib.rs:103-110 | For `0 < t <= min(w, h)`, the box beam's y-moment equals its x-moment (lines 85-86) if and only if `w == h`. |
| ShapeProperties.PipeAreaNonNegativeIff | src/lib.rs:124-127 | A pipe's area is `π·t·(2R - t)`. It is non-negative if and only if `0 <= t <= 2R` (or `2R <= t <= 0`). |
| ShapeProperties.SmallSectionClosedForms | src/lib.rs:59-91 | The x-moments of `Rod(1)`, `Rectangle(2,2)` and `Pipe(2,1)` are `π/4`, `16/12` and `15π/4`. `IBeam(2,2,1,1)` has the x-moment of `Rectangle(2,2)`. |
| WellFormedShapes.WellFormedPropertiesNonNegative | src/lib.rs:59-142 | Every shape satisfying the side conditions below has a non-negative area, x-moment and y-moment. |
| Findings.RectangleYIgnoresQuarterTurn | src/lib.rs:112 | As written, `Rectangle(2,1)` has y-moment `2/12`, while the same section turned, `Rectangle(1,2)`, has x-moment `8/12`. |
| Findings.IBeamYIsZero | src/lib.rs:102 | As written, `IBeam(2,2,1,1)` has the x-moment of `Rectangle(2,2)` but y-moment 0, where that rectangle's is `16/12`. |
| Findings.BoxBeamSubtractsOneWall | src/lib.rs:85-86 | As written, `BoxBeam(3,3,1)` has x-moment `65/12`, not the `80/12` of the 3 × 3 square less its 1 × 1 opening. `BoxBeam(2,2,1)` has area 3 (line 138), not the 4 of the solid square its walls fill. |
| Findings.CorrectedArea | src/lib.rs:122-142 | Corrected area. It agrees with the code on every variant but `BoxBeam`, whose area is the `w × h` rectangle's less the `(w - 2t) × (h - 2t)` opening's. |
| Findings.CorrectedMomentOfInertiaX | src/lib.rs:59-91 | Corrected x-moment. It agrees with the code on every variant but `BoxBeam`, whose x-moment is the `w × h` rectangle's less the `(w - 2t) × (h - 2t)` opening's. |
| Findings.CorrectedMomentOfInertiaY | src/lib.rs:99-114 | Corrected y-moment. `Pipe` and `Rod` agree with the code. `Rectangle` and `BoxBeam` are the corrected x-moment of the section turned a quarter turn. `IBeam` gets a formula of its own. |
| Findings.CorrectedBoxBeamIsRectangleDifference | src/lib.rs:80-87 | The corrected box beam is the outer rectangle less the `(w - 2t) × (h - 2t)` opening, in area and about both axes. |
| Findings.CorrectedBoxBeamClosedForms | src/lib.rs:80-87 | The corrected `BoxBeam(3,3,1)` has both moments `80/12`. The corrected `BoxBeam(2,2,1)` has the area of the solid `Rectangle(2,2)`. |
| Findings.CorrectedBoxBeamSolidIff | src/lib.rs:134-138 | The corrected box beam has the area of the solid `w × h` rectangle if and only if `2t == w` or `2t == h`. |
| Findings.CorrectedBoxBeamMomentSolidIff | src/lib.rs:80-87 | The corrected box beam has the x-moment of the solid `w × h` rectangle if and only if `2t == w` or `2t == h`. |
| Findings.CorrectedRectangleMomentsEqualIff | src/lib.rs:112 | The corrected rectangle's two moments are equal if and only if `w == h`, `w == 0`, `h == 0` or `w == -h`. |
| Findings.CorrectedIBeamIsRectangleIff | src/lib.rs:102 | The corrected I-beam has the y-moment of the `w × h` rectangle if and only if `web == width` or `2·flange == height`. These are the same cases in which its x-moment matches. |
| Findings.CorrectedPropertiesNonNegative | src/lib.rs:59-142 | The corrected area and moments are non-negative for shapes whose box-beam walls fit (`2t <= min(w, h)`). The corrected I-beam y-moment is positive when `width > 0` and `flange > 0`. |

The side conditions (`WellFormedShapes.WellFormed`) are the model's own, because the crate validates nothing:
- `Pipe`: `0 <= t <= R`.
- `IBeam`: `0 <= web <= w` and `0 <= 2·flange <= h`.
- `BoxBeam`: `0 <= t <= min(w, h)`. This is the opening the code subtracts.
- `Rod` and `Rectangle`: non-negative dimensions.

## Left out

- Floating-point rounding of `f64`: the model computes on `real`. `Pi` is the decimal `3.141592653589793` that `std::f64::consts::PI` prints as, not the binary value.
- Non-finite `f64` values: reals have no NaN or ±∞. For example, with `width = ∞` and `thickness = 0`, the area at src/lib.rs:138 is `∞·h - ∞·h = NaN`, while `BoxBeamZeroThickness` gives 0. Every lemma is about finite dimensions.
- Composite shapes, centroids and the parallel-axis theorem: `src/lib.rs` has none of them.
- tests/all_tests.rs, examples/beam.rs and examples/shaft.rs are not part of this model:
  - they call `moi_x`, `moi_x_d`, `new_ibeam`, `new_pipe`, `polar_moi` and `meters`, which `src/lib.rs` does not define;
  - the examples print through the external `uom` units crate;
  - the test asserts no values.
- The `#[non_exhaustive]` and `Clone, Copy` attributes on the enum (src/lib.rs:8-9) have no behaviour to model.
- ShapeProperties.BoxBeamMomentsEqualIffSquare: the direction from equal moments to `w == h` is stated only for `0 < t <= min(w, h)`. With `t == 0`, both moments are 0 for any `w` and `h`. `BoxBeamAxisSwap` covers the square case for all inputs.

## Findings

| source | as written | input that shows it | evidently intended | confidence | as-written member | corrected member |
|---|---|---|---|---|---|---|
| src/lib.rs:112 | A rectangle's y-moment returns its x-moment, `w·h³/12` | `Rectangle(2,1)`: y-moment `2/12`, but the same section turned, `Rectangle(1,2)`, has x-moment `8/12` | `h·w³/12`, the x-moment of the turned section | high; not executed | Findings.RectangleYIgnoresQuarterTurn | Findings.CorrectedMomentOfInertiaY |
| src/lib.rs:102 | An I-beam's y-moment is the constant `0.0` | `IBeam(2,2,1,1)` fills the 2 × 2 square and has its x-moment, but its y-moment is 0 rather than `16/12` | Flanges on edge plus web: `2·f·w³/12 + (h - 2f)·web³/12` | high; not executed | Findings.IBeamYIsZero | Findings.CorrectedMomentOfInertiaY |
| src/lib.rs:85-86 | The box beam's opening is `(w - t) × (h - t)`, one wall short; likewise lines 108-109 and 138 | `BoxBeam(3,3,1)`: x-moment `65/12` rather than `80/12`. `BoxBeam(2,2,1)`: area 3 although its walls fill the 2 × 2 square | Opening `(w - 2t) × (h - 2t)` | high; not executed | Findings.BoxBeamSubtractsOneWall | Findings.CorrectedMomentOfInertiaX |
