# S4 Python front end and C++ staging layer, modelled in Dafny

S4 computes the optical response of layered periodic structures by rigorous
coupled-wave analysis (RCWA). This project models the code that sits in front
of the S4 solver in the Python package. There are two layers.

- **`Simulation` (`cpp/__init__.py`)**, the Python class users call. It does
  the following:
  - refuses every command until `create_new` has run;
  - checks the rank and extents of every array argument;
  - replaces NaN entries by 0 with a warning;
  - casts scalars of the wrong Python type, with a printed notice;
  - converts rotation angles to a fraction of a turn;
  - converts excitation angles from degrees to radians;
  - rejects clockwise polygons by a shoelace sum;
  - reshapes the flat result buffers the extension returns.
- **`PySimulation` (`cpp/python.cpp`)**, the pybind11 class behind it. It does
  the following:
  - re-checks some shapes;
  - interprets permittivity buffers and picks a scalar or tensor material type;
  - repacks a 3×3 tensor into the backend's layout;
  - zero-pads the lattice;
  - looks up layers and materials by name;
  - picks the backend's region type;
  - shifts the excitation order from 1-based to 0-based;
  - checks the frequency;
  - packs point fields as E then H.

Everything is a pure function over an immutable backend record,
`State.Sim`. It holds:
- the lattice;
- the Fourier count;
- the ordered materials;
- the layer stack with its patterned regions;
- the excitation;
- the frequency;
- the set of options that are on;
- whether the wrapper considers a solution cached.

Failures are `Result` errors naming which check fired. Warnings and prints are
a list of `Notice`s.

The modules follow the program:

| module | contents |
|---|---|
| `Numbers` | π as a constant known only to lie between 3.1415 and 3.1416; Python scalars; `int()` truncation |
| `Arrays` | numpy-like arrays and the NaN sanitiser |
| `Geometry` | the shoelace winding test |
| `Units` | rotation fractions and the degree-to-radian step |
| `State` | the backend record |
| `Staging` | `PySimulation` |
| `Decode` | result reshapes and point-field decoding |
| `Frontend` | `Simulation`, plus a command-sequence model of its lifecycle |

Calls into the solver are parameters: `status` codes, the four flux values, and
the two 6-value field buffers. The permittivity entries that `SetEPS` never
writes come from an 18-value `stale` parameter.

Where the code and its documentation disagree, the model follows the code:
- `SetLayer` with an existing name changes nothing. Its documentation says it
  replaces the thickness and clears the patterning.
- `set_resolution` validates its argument but nothing is stored.
- The Python permittivity check refuses 9-element vectors, which its
  documentation lists as allowed.
- The rotation fraction divides radians by π/2 (see Findings).

## Model

| member | source | states |
|---|---|---|
| Arrays.CountNaNsPositive | cpp/__init__.py:30-42 | the NaN count is positive exactly when some element is NaN |
| Arrays.Sanitize | cpp/__init__.py:54-74 | shape and length kept; numbers kept; exactly the NaN positions become 0.0; warns iff some entry is NaN |
| Geometry.CheckWinding | cpp/__init__.py:588-593 | accepts iff there is a vertex and the closed shoelace sum is not negative; no vertices is the IndexError case, negative sums the clockwise error |
| Geometry.LoopSumReverse | cpp/__init__.py:588-590 | reversing the vertex order negates the closed shoelace sum |
| Geometry.ReversedPolygonRejected | cpp/__init__.py:588-593 | a polygon with positive sum is accepted and its reversal is refused as clockwise |
| Geometry.LoopSumRotate | cpp/__init__.py:588-590 | a one-step rotation of the vertex list (hence any rotation) leaves the sum unchanged |
| Geometry.DegenerateAccepted | cpp/__init__.py:588-593 | one or two vertices (zero area) are accepted; an empty list is refused |
| Geometry.SquareAccepted | tests/test.py:35-36 | the centred square of the polygon test (any half-side) has sum 8h², is accepted, and its reversal is refused |
| Numbers.Trunc | cpp/__init__.py:203-206 | `int()` of a float truncates toward zero for both signs |
| Units.RotationFraction | cpp/__init__.py:438-442 | the fraction times 360 is the degree angle; times π/2 it is the radian angle |
| Units.RotationExamples | cpp/__init__.py:516-520 | 90° gives 0.25, π/4 radians gives 0.5, 0 gives 0 in both units |
| Units.RadianFractionIsFourfold | cpp/__init__.py:601-605 | the same angle given in radians yields four times the degree fraction |
| Units.RightAngleMismatch | cpp/__init__.py:439-442 | a right angle is a full turn in radians but a quarter turn in degrees |
| Units.TurnFraction | cpp/__init__.py:438-442 | corrected conversion: the fraction times 2π (radians) or 360 (degrees) is the angle |
| Units.TurnFractionUnitsAgree | cpp/__init__.py:601-605 | with the corrected conversion both units give the same fraction for the same angle |
| Units.ExcitationRadians | cpp/__init__.py:693-699 | in degree mode exactly phi, theta and both phases are scaled by π/180; amplitudes never change; radian mode changes nothing |
| Units.ExcitationRadiansRoundTrip | cpp/__init__.py:693-699 | converting back to degrees restores the caller's values; zero angles and phases are fixed |
| Staging.CreateNew | cpp/python.cpp:43-63 | a fresh record has no materials, layers, excitation, frequency or options, no cached solution, the lattice [1, 0, 0, 1] (orthonormal unit vectors) and the Fourier count 1, the smallest SetNumG accepts |
| Staging.Repack | cpp/python.cpp:136-147 | positions 4..9 take the old positions 6, 7, 8, 9, 16, 17; all other positions are unchanged |
| Staging.RepackIsXYBlockPlusZZ | cpp/python.cpp:136-147 | after repacking, the first 8 values are the xy block of the tensor and the next 2 are its zz entry |
| Staging.SetEps | cpp/python.cpp:65-166 | succeeds iff the shape is (1), (2), (18) or (3,3,2); scalar type iff (1) or (2); 1-D data is copied with unwritten entries left as they were; 3-D data becomes xy block plus zz |
| Staging.AddMaterial | cpp/python.cpp:168-194 | fails iff SetEPS does; otherwise appends one material and nothing else changes |
| Staging.SetMaterial | cpp/python.cpp:196-229 | overwrites the material found by name or appends; afterwards the name finds the new material; other materials are unchanged |
| Staging.SetMaterialUnknownIsAdd | cpp/python.cpp:196-229 | for an unused name, set equals add |
| Staging.LatticeVector | cpp/python.cpp:240-260 | a 1-D buffer gives [a, 0, 0, 0]; a 2-D buffer's first four values are copied; otherwise zeros |
| Staging.SetLattice | cpp/python.cpp:237-276 | fails iff the backend status is non-zero, with that code; otherwise only the lattice changes |
| Staging.SetNumG | cpp/python.cpp:278-287 | refuses n < 1; otherwise stores n and nothing else |
| Staging.GetNumG | cpp/python.cpp:289-293 | the count read back is the one value that setting again leaves the record unchanged |
| Staging.SetNumGRoundTrip | cpp/python.cpp:278-293 | a stored count reads back unchanged |
| Staging.AddLayer | cpp/python.cpp:295-319 | fails iff the background material is unknown; otherwise appends one unpatterned layer |
| Staging.SetLayer | cpp/python.cpp:321-356 | an existing name leaves the record unchanged; a new name behaves exactly as AddLayer |
| Staging.AddLayerFindable | cpp/python.cpp:305-318 | a new layer under an unused name is the one later lookups find, with its thickness and no regions |
| Staging.SetLayerThickness | cpp/python.cpp:358-384 | fails iff the layer is missing (checked first) or the thickness is negative; otherwise only that layer's thickness changes |
| Staging.ThicknessRoundTrip | cpp/python.cpp:366-383 | after a change the layer is still found, reads back the new thickness and keeps its regions |
| Staging.AddRegion | cpp/python.cpp:409-438 | succeeds iff layer and material are both found, the layer checked first; on success the region (material index, centre, shape) is appended to that layer only, and no other layer or field changes |
| Staging.SetLayerPatternCircle | cpp/python.cpp:386-445 | succeeds iff the centre is a 2-vector and both names are found, checked in that order; appends to that layer only an ellipse with halfwidths (r, r) and no angle |
| Staging.CircleIsEllipse | cpp/python.cpp:386-562 | a circle of radius r is accepted exactly when the ellipse with halfwidths (r, r) is; the two records differ only in the angle of the new region |
| Staging.SetLayerPatternRectangle | cpp/python.cpp:447-507 | succeeds iff both names are found, layer first; appends to that layer only a region that is an interval iff the y centre and y halfwidth are both zero, otherwise a rectangle, with the given halfwidths and angle |
| Staging.RectangleOnAxisIsInterval | cpp/python.cpp:447-507 | a rectangle centred on the x axis with zero y halfwidth is an interval; any non-zero y centre or y halfwidth makes it a rectangle with the same halfwidths and angle |
| Staging.SetLayerPatternEllipse | cpp/python.cpp:509-562 | succeeds iff both names are found, layer first; appends to that layer only an ellipse with the given centre, halfwidths and angle |
| Staging.SetLayerPatternPolygon | cpp/python.cpp:564-622 | succeeds iff both names are found, layer first; appends to that layer only a polygon whose vertex count is the first extent and whose coordinates are the flattened array |
| Staging.SetExcitationPlaneWave | cpp/python.cpp:624-701 | the cached solution is discarded even on failure; succeeds iff all three are 2-vectors and the status is 0; order n > 0 becomes n − 1 |
| Staging.SetFrequency | cpp/python.cpp:703-723 | succeeds iff re > 0 and im ≤ 0; both are stored unchanged |
| Staging.Use | cpp/python.cpp:725-765 | the option is on iff requested; all other options are unchanged |
| Staging.UseCommutes | cpp/python.cpp:725-765 | switching two different options in either order gives the same record |
| Staging.SetResolution | cpp/python.cpp:767-776 | refuses values below 2; the record is unchanged either way |
| Staging.GetPoyntingFlux | cpp/python.cpp:798-828 | unknown layer (checked first) or non-zero status fails; otherwise returns the four flux values |
| Staging.PackField | cpp/python.cpp:865-870 | twelve values: E's six, then H's six |
| Staging.GetFieldAtPoint | cpp/python.cpp:830-872 | refuses a point that is not a 3-vector, then a non-zero status; otherwise returns the E-then-H packing |
| Decode.RowsIndex | cpp/__init__.py:951 | row i, column j of a (-1, w) reshape is element i·w + j |
| Decode.FlattenRows | cpp/__init__.py:951 | flattening the reshaped rows returns the buffer |
| Decode.RowsFlatten | cpp/__init__.py:1073 | reshaping the flattening of equal-width rows returns the rows |
| Decode.GridIndex | cpp/__init__.py:1035-1036 | element (x, y, z) of a three-axis reshape is element (x·b + y)·c + z |
| Decode.FluxByMode | cpp/__init__.py:950-952 | succeeds iff the length is a multiple of 4; [i][j] is buf[4i + j]; flattening gives the buffer back |
| Decode.Waves | cpp/__init__.py:1071-1074 | succeeds iff the length is a multiple of 22; [n][r][k] is buf[22n + 11r + k] |
| Decode.FieldPlane | cpp/__init__.py:1033-1036 | succeeds iff the length is nv·nu·3; [v][u][c] is buf[(v·nu + u)·3 + c] |
| Decode.FieldAtPoint | cpp/__init__.py:982-995 | E component k is raw[k] + i·raw[3 + k]; the H returned equals E |
| Decode.IntendedFieldAtPoint | cpp/__init__.py:985-991 | corrected decoding: H component k is raw[6 + k] + i·raw[9 + k] |
| Decode.IntendedFieldAtPointUnpacks | cpp/python.cpp:865-870 | the corrected decoding recovers E and H from the backend's packing |
| Decode.FieldAtPointAgreement | cpp/__init__.py:990-993 | the as-written and corrected decodings agree iff the backend's H equals its E |
| Decode.FieldAtPointLosesH | cpp/__init__.py:993 | zero E with non-zero Hx is reported with H zero |
| Frontend.CreateNew | cpp/__init__.py:76-82 | afterwards a record exists with no materials, layers, excitation, frequency or options, and the backend's default lattice and Fourier count |
| Frontend.CreateNewForgets | cpp/python.cpp:60-63 | the new record does not depend on what the object held before: every field of an old record is reset to its default |
| Frontend.CheckVector | cpp/__init__.py:352-359 | accepts iff the array is 1-D with the required length, and then sanitises it |
| Frontend.CheckPermittivity | cpp/__init__.py:95-110 | accepts iff rank ≤ 3, 1-D lengths are 1, 2 or 18, and 3-D shapes are (3,3,2); a 9-vector never passes |
| Frontend.PermittivityLayouts | cpp/__init__.py:95-108 | the Python and C++ checks together accept exactly the shapes (1), (2), (18), (3,3,2) |
| Frontend.AddMaterial | cpp/__init__.py:112-132 | succeeds iff a record exists and the shape is one of the four layouts; appends one material named as given whose permittivity is the NaN-zeroed input laid out by SetEPS; warns iff a NaN was zeroed |
| Frontend.NanPermittivityStoredAsZero | cpp/__init__.py:112-132 | a NaN entry of a vector permittivity is stored as 0 and a warning is given |
| Frontend.SetMaterial | cpp/__init__.py:134-154 | same acceptance; the name is found at its old index, or at the end when new; that material holds the NaN-zeroed permittivity; the count grows only for a new name; no other material and no other field changes |
| Frontend.SetLattice | cpp/__init__.py:156-187 | succeeds iff a record exists, the input is a number or a 2×2 array, and the status is 0; the lattice is [p, 0, 0, 0] or the four sanitised entries |
| Frontend.PeriodIsDegenerateLattice | cpp/__init__.py:156-187 | a single period p gives the same result as the 2×2 array ((p, 0), (0, 0)) |
| Frontend.LatticePeriod | tests/test.py:15-16 | a single period p is stored as (p, 0), (0, 0) without notices |
| Frontend.SetNumG | cpp/__init__.py:189-209 | the count is `int(n)`; refused below 1; a notice iff n was not an int |
| Frontend.GetNumG | cpp/__init__.py:211-222 | reads the stored count; fails without a record |
| Frontend.NumGRoundTrip | cpp/__init__.py:203-221 | set then get returns `int(n)` |
| Frontend.NumGExamples | tests/test.py:10-13 | 81 reads back as 81; 2.7 becomes 2 with a notice; 0.5 is refused |
| Frontend.AddLayer | cpp/__init__.py:224-256 | succeeds iff a record exists and the background is known; appends the layer with `float(thickness)`; a notice iff the thickness was not a float |
| Frontend.SetLayer | cpp/__init__.py:258-292 | an existing name leaves the record unchanged; for a new name the result, error or success, is exactly add_layer's |
| Frontend.SetLayerThickness | cpp/__init__.py:294-320 | succeeds iff the layer exists and `float(thickness)` ≥ 0; that layer takes the new thickness; no other layer and no other field changes |
| Frontend.SetLayerPatternCircle | cpp/__init__.py:322-370 | succeeds iff a record exists, the centre is a 2-vector, radius ≥ 0, and layer and material exist; registers an unrotated ellipse (r, r) at the NaN-zeroed centre; a NaN warning iff the centre had a NaN, a cast notice iff the radius was not a float |
| Frontend.SetLayerPatternEllipse | cpp/__init__.py:372-448 | centre and halfwidths must be 2-vectors; the ellipse carries the rotation fraction of the angle; the notices are exactly a NaN warning for the centre if it had a NaN, then one for the halfwidths if they had one |
| Frontend.SetLayerPatternRectangle | cpp/__init__.py:450-526 | as the ellipse, notices included; an interval iff the zeroed y centre and y halfwidth are both 0 |
| Frontend.SetLayerPatternPolygon | cpp/__init__.py:528-611 | succeeds iff the vertices are an (n, 2) array with n > 0 and a non-negative closed shoelace sum, and the lookups succeed; (0, 2) is the IndexError case; a NaN warning for the centre and for the vertices iff each had a NaN |
| Frontend.RegisteredCornersAreVertices | cpp/python.cpp:564-622 | the polygon the staging layer registers reads back, corner by corner, as the (n, 2) vertex array it was given |
| Frontend.RegisteredPolygonCounterClockwise | cpp/__init__.py:584-611 | every polygon the command registers has vertices and a non-negative closed shoelace sum |
| Frontend.SetExcitationPlaneWave | cpp/__init__.py:613-702 | succeeds iff the three are 2-vectors, `int(order)` ≥ 1 and the status is 0; the backend gets order − 1 and the converted angles; the cached solution is discarded; a NaN warning per array that had a NaN, a cast notice iff the order was not an int |
| Frontend.Written | cpp/__init__.py:44-74 | a float64 array passed in place has its entries overwritten; a copied one keeps its entries |
| Frontend.ExcitationArgsAfter | cpp/__init__.py:693-699 | as written, an angle array passed in place comes back NaN-zeroed and scaled by π/180 in degree mode; copies are unchanged |
| Frontend.RepeatedExcitationCompounds | cpp/__init__.py:693-699 | reusing the same angle array for a second call hands the backend φ·(π/180)² instead of φ·π/180 |
| Frontend.RepeatedExcitationIsStable | cpp/__init__.py:613-702 | with arguments passed by value, repeating the call gives the same record and notices |
| Frontend.SetFrequency | cpp/__init__.py:704-728 | succeeds iff re > 0 and im ≤ 0; the imaginary check fires first; both values are stored |
| Frontend.FrequencyExamples | cpp/__init__.py:714-728 | (1, 0) accepted; an int real part is cast with a notice; a positive imaginary part is refused before a zero real part |
| Frontend.FrequencyChecksAgree | cpp/__init__.py:704-728 | the Python and C++ frequency checks accept the same values and store the same record; their errors differ exactly when re ≤ 0 and im > 0 |
| Frontend.Use | cpp/__init__.py:732-864 | the option is on iff `bool(use)`; no other option changes; a notice iff `use` was not a bool |
| Frontend.SetResolution | cpp/__init__.py:866-881 | succeeds iff `int(resolution)` ≥ 2 and leaves the record unchanged; the only notice is a cast notice, given iff the resolution was not an int |
| Frontend.ResolutionHasNoEffect | cpp/__init__.py:866-881 | the resolution command never changes the object |
| Frontend.GetPoyntingFlux | cpp/__init__.py:883-916 | succeeds iff the layer exists and the status is 0; returns the backend's four values |
| Frontend.GetFieldAtPoint | cpp/__init__.py:954-995 | succeeds iff the point is a 3-vector and the status is 0; E from the backend's first six values; H equals E |
| Frontend.IntendedGetFieldAtPoint | cpp/__init__.py:985-991 | corrected query: H from the backend's last six values |
| Frontend.Apply | cpp/__init__.py:22-28 | without a record every command except create_new leaves the object as it was; a record, once there, stays |
| Frontend.GuardBeforeCreate | cpp/__init__.py:22-28 | on a fresh object every command other than create_new fails with the lifecycle error |
| Frontend.RunLifecycle | cpp/__init__.py:15-28 | for any command sequence: no record without create_new; a record is never lost; any create_new leaves a record |

## Left out

- The solver itself is not modelled. That covers eigen-solves, flux and field values, and the meaning of the z offset passed to `GetPoyntingFlux`; results and status codes are parameters.
- Allocation failures of the backend's material, layer and region calls are left out; only the name lookups can fail.
- `S4_Layer_IsCopy` is not modelled. No binding creates layer copies, so the check never fires.
- The `isinstance(name, str)` checks are not modelled, since names are typed as strings. Overflow of pybind11's C `int` conversion is left out too.
- Scalars are finite numbers. NaN and infinity appear only as array elements, and there only NaN.
- Notices printed before an exception are not returned, because a failed command yields only its error.
- Message texts are not modelled, including the fall-through of the `SetLattice` error switch.
- The 9-element branch of `SetEPS` reads past its buffer. `Staging.SetEps` excludes it by precondition, and the Python check never lets it through.
- Frontend.SetExcitationPlaneWave: when the backend rejects the plane wave, the result does not show that the solution was already discarded. `Staging.SetExcitationPlaneWave` records it.
- The queries `get_poynting_flux_by_G`, `get_field_plane` and `get_waves` call extension methods that `cpp/python.cpp` does not register. Only their reshapes are modelled, in `Decode`. numpy's `-1` extents in `n_uv` are not modelled (nu and nv are naturals).
- `GetNumG` reads the stored count back. The backend's own getter is not part of this model.
- Memory lifetime is not modelled: freeing an uncreated session in the destructor, and the session leaked by a second `CreateNew`.
- Floating-point rounding is not modelled: arithmetic is exact on reals. This affects Units.ExcitationRadiansRoundTrip (a float64 round trip through π/180 need not restore the bits), Units.RotationFraction, and the sign of the shoelace sum in Geometry.CheckWinding for nearly degenerate polygons.
- π is a constant known only to lie between 3.1415 and 3.1416; no property uses more digits.
- State.Sim: `solved` tracks only the wrapper's own discard of the solution (`Simulation_DestroySolution` at cpp/python.cpp:632) and the queries. Whether the backend's setters also drop its cached solution is not modelled.
- Arrays.Sanitize: returns a new buffer. `_set_nan_to_zero` writes into the caller's float64 ndarray, since `np.require` does not copy it; that aliasing is modelled only for `set_excitation_planewave`, by Frontend.ExcitationArgsAfter.
- Frontend.SetExcitationPlaneWave: takes its arrays by value, the intended copy semantics. The as-written in-place conversion is Frontend.ExcitationArgsAfter (see Findings).
- Other repository files are not part of this model: `cpp/cubature.h`, `cpp/SpectrumSampler.h`, the Python header and binding boilerplate, notebooks, data scripts, and the MPI test.

## Findings

The command model keeps the code's behaviour. The corrected definitions stand beside it, each with the intended property proved.

| source | as written | input that shows it | evidently intended | confidence | as-written member | corrected member |
|---|---|---|---|---|---|---|
| cpp/__init__.py:993 | `h_field` is rebuilt from `e_field`, so H is returned as a copy of E | backend E all zero, Hx = 1: H comes back zero | H from raw entries 6..8 (real) and 9..11 (imaginary) | high, not executed | Decode.FieldAtPointLosesH | Decode.IntendedFieldAtPoint |
| cpp/__init__.py:693-699 | angles and phases are NaN-zeroed and converted to radians in place, inside the caller's float64 array (`np.asarray` does not copy it) | `a = np.array([30.0, 0.0])` passed twice as the angle: the second call gets φ = 30·(π/180)² | convert a copy and leave the caller's array alone | medium, not executed | Frontend.RepeatedExcitationCompounds | Frontend.RepeatedExcitationIsStable |
| cpp/__init__.py:439-442 | radians are divided by π/2 to get a fraction of a turn, while degrees are divided by 360 | 90° gives 0.25 but π/2 radians gives 1.0 | divide radians by 2π | medium, not executed | Units.RightAngleMismatch | Units.TurnFractionUnitsAgree |
