# Cutout tool: timeline controller model

This project models the core of the cutout tool's server-side controller,
`server/TSRController.ts`. The controller turns a configuration into a
CasparCG timeline for the timeline-state-resolver library. The configuration
has three tables:

- **Sources** are video feeds. Each has a native size, a recording rotation and an input (a media file or a DeckLink card).
- **Cutouts** are crop rectangles in a source's upright view space, each with a placement rotation.
- **Outputs** are CasparCG channels. Each shows either one cutout (CUTOUT) or a grid of placed cutouts (MULTIVIEW).

It has two parts.

1. **The transform engine** (modules `Geometry`, `Transforms`, `TransformLemmas`).
   - The `transformation-matrix` package's `translate`, `scale`, `rotateDEG`, `compose` and `applyToPoint` are defined over six-coefficient real affine matrices. `compose` is the ordinary matrix product folded from the left, so in `compose(A, B)` the matrix B acts on a point first.
   - The controller's `_sourceTransform` and `_cutoutTransform` are built on top of them, together with the CUTOUT chain, the MULTIVIEW cell and viewport chains, and the three mixer builders:
     - `_casparTransformPosition`, which maps the four corners of the source box to a `perspective`;
     - `_casparTransformClip`, the bounding box of two mapped diagonal corners as a `clip`;
     - `_casparTransformTransition`, the fixed EASEINOUTQUAD 0.5 transitions.
   - Cosine and sine of degrees are a parameter (`Trig`). Lemmas that need trigonometric facts require them: cos² + sin² = 1 at the angle, or the exact values at quarter turns.

2. **The timeline builder** (modules `Referrer`, `Layout`, `Controller`, `Plans`, `BuildProofs`, `Rerun`, `Scenarios`).
   - `CasparReferrer` is a cache from a content key (`media_<file>`, `input_<type>_<device>_<format>`) to the first layer that played that content. A later request for the same content becomes a ROUTE to that layer.
   - `updateTimeline` takes the three tables and the cache as inputs:
     - it sorts MULTIVIEW outputs first, with a stable sort;
     - it numbers outputs by their index AFTER the sort;
     - it writes each output's layer mappings before it looks up the cutout;
     - it pushes one picture per CUTOUT output, and a background plus, per cell, a black box and a picture per MULTIVIEW output;
     - it stops at the first error and leaves the partial state behind;
     - on success, it gives every unnamed object the id `Unnamed<i>`.
   - `Plans` restates the build without the cache, as the list of requests it issues. `UpdateServesPlan` proves that the build is that list served through the cache. Most properties of the build are proved at that level.

Every operation is a pure function on immutable values. The controller's mutable fields (`mappings`, `timeline`, the referrer's cache) become a `State` value threaded through the walk, and a thrown error becomes the `error` field of the result.

Points where the code's behaviour is easy to misread:
- `compose` applies its LAST argument first, not its first. The cutout chain at `server/TSRController.ts:417-421` only makes sense this way.
- The `output<i>` numbering uses the index after the sort, not the position in the input list.
- The reference cache is never reset between updates (see Findings).
- Nothing is rolled back on an error: mappings written before the throw stay.
- A MULTIVIEW cell with a DeckLink source still pushes (and caches) its black box before the throw.

## Model

| member | source | states |
|---|---|---|
| Geometry.Translate | server/TSRController.ts:2-10 | `translate(tx, ty)` moves every point by (tx, ty) |
| Geometry.Scale | server/TSRController.ts:2-10 | `scale(sx, sy)` stretches every point about the origin by sx and sy |
| Geometry.ScaleUniform | server/TSRController.ts:295 | `scale(s)` with one argument stretches both axes by s |
| Geometry.Rotate | server/TSRController.ts:401 | `rotateDEG(deg)` turns every point about the origin by the cosine and sine of deg |
| Geometry.Multiply | server/TSRController.ts:2-10 | the product of two matrices acts as the right matrix first, then the left one, on every point |
| Geometry.Compose | server/TSRController.ts:2-10 | `compose(m1, ..., mn)` acts on every point as mn first and m1 last |
| Geometry.ComposeAppliesLastFirst | server/TSRController.ts:417-421 | compose(A, B) sends p to A(B(p)), and compose(A, B, C) sends p to A(B(C(p))) |
| Geometry.RotateAbout | server/TSRController.ts:229 | `rotateDEG(deg, cx, cy)` turns every point about (cx, cy) by deg |
| Geometry.RotateAboutFixesCentre | server/TSRController.ts:229 | the centre of a turn stays where it is, at any angle |
| Geometry.RotateAboutOrigin | server/TSRController.ts:467-470 | `rotateDEG` without a centre turns about the origin |
| Geometry.RotateInverse | server/TSRController.ts:398-403 | when cos² + sin² = 1 and cos is even and sin odd at the angle, turning by -deg undoes turning by deg |
| Geometry.NeutralTransforms | server/TSRController.ts:225-230 | translate(0, 0), scale(1, 1) and a turn by 0 degrees, about any centre, move no point |
| Transforms.SourceTransform | server/TSRController.ts:398-403 | `_sourceTransform` undoes the source's rotation: it maps every rotated point back to where it was |
| Transforms.CutoutTransform | server/TSRController.ts:404-422 | `_cutoutTransform` applies the source transform, then shifts by the crop corner, then stretches by source size over cutout size |
| Transforms.NormalisationActs | server/TSRController.ts:226-227 | the first two steps of the output chains map q to (q.x / width + 0.5, q.y / height + 0.5) |
| Transforms.CutoutOutputTransform | server/TSRController.ts:225-230 | the CUTOUT chain turns about (0.5, 0.5) first, then crops, then normalises into the output |
| Transforms.ViewportTransform | server/TSRController.ts:298-303 | a cell's viewport scales by the cell scale, moves by the cell offset, then normalises into the output |
| Transforms.MultiviewCellTransform | server/TSRController.ts:291-297 | a cell's chain is its viewport applied after the cutout transform |
| Transforms.CasparTransition | server/TSRController.ts:495-506 | the transition payload has EASEINOUTQUAD with duration 0.5 for both in and change, and no perspective or clip |
| Transforms.CasparPosition | server/TSRController.ts:423-454 | the perspective holds the images of the box corners, TL first and BR third; it is a parallelogram; the payload carries the fixed transitions and no clip |
| Transforms.BoundingClip | server/TSRController.ts:472-491 | the clip from the element-wise min and max of two points has non-negative size, contains both points, has edges at exactly their min and max, and lies inside every clip containing both |
| Transforms.ClipMatrix | server/TSRController.ts:467-470 | the clip matrix sends every point through rotateDEG(outputRotation) about the origin first, then through the viewport |
| Transforms.CasparClip | server/TSRController.ts:455-494 | `_casparTransformClip` is the bounding clip of the output box's two diagonal corners under viewport ∘ rotateDEG(outputRotation); its size is non-negative; it has the fixed transitions and no perspective |
| Transforms.CutoutOutputPosition | server/TSRController.ts:222-235 | the mixer of a CUTOUT output has the fixed transitions and no clip; its perspective holds the images of the source box's four corners, TL, TR, BR, BL, under the CUTOUT chain: turned about (0.5, 0.5) by the placement rotation, cropped by the cutout transform, normalised into the output |
| Transforms.CellPosition | server/TSRController.ts:288-308 | a cell's position mixer has the fixed transitions and no clip; its perspective holds the images of the source box's four corners, TL, TR, BR, BL, under the cell chain: cropped by the cutout transform, then placed by the cell's viewport |
| Transforms.CellClip | server/TSRController.ts:309-313 | a cell's clip mixer has the fixed transitions and no perspective; its clip, of non-negative size, is the bounding clip of the images of the output box's TL and BR corners under the cell's viewport after rotateDEG(outputRotation) |
| Transforms.CellMixer | server/TSRController.ts:330-333 | `{...mixerPosition, ...mixerClipping}` carries the position's perspective and the clipping's clip |
| TransformLemmas.CutoutFillsSource | server/TSRController.ts:417-421 | for any source rotation at which cos² + sin² = 1 (cos even, sin odd) and any cutout of non-zero size, the crop's view-space corners land on (0, 0) and (source width, source height) |
| TransformLemmas.CutoutMapsViewPoint | server/TSRController.ts:417-421 | a view-space point at offset (dx, dy) from the crop corner lands at (dx, dy) stretched by source size over cutout size |
| TransformLemmas.CutoutCornersUnrotated | server/TSRController.ts:398-421 | for an unrotated source, the crop corners themselves land on (0, 0) and (source width, source height) |
| TransformLemmas.FullFrameCutoutIsNeutral | server/TSRController.ts:398-421 | an unrotated source with a full-frame cutout has a cutout transform that moves no point |
| TransformLemmas.FullFrameChainNormalises | server/TSRController.ts:225-230 | in that full-frame case the CUTOUT chain is just the output normalisation |
| TransformLemmas.PositionOfCorners | server/TSRController.ts:430-451 | the perspective lists the images of the corners in the order TL, TR, BR, BL |
| TransformLemmas.FullFrameCornerImages | server/TSRController.ts:225-230 | the full-frame CUTOUT chain maps the source box's corners onto the unit square's corners |
| TransformLemmas.NormalisedBoxCorners | server/TSRController.ts:226-227 | the normalisation maps the output-sized box centred on the origin onto the unit square |
| TransformLemmas.FullFrameIsUnitSquare | server/TSRController.ts:225-235 | a full-frame cutout of an unrotated source on a CUTOUT output of the same size has the perspective (0,0), (1,0), (1,1), (0,1) |
| TransformLemmas.QuarterTurnSource | server/TSRController.ts:398-403 | for a source recorded at ±90, ±180 or ±270 degrees, the source transform is the exact axis swap or flip that turns it back upright |
| TransformLemmas.SideSourceComesOutTurned | server/TSRController.ts:222-235 | a source recorded at 90 degrees, cropped to its whole upright view and shown on a CUTOUT output of its native size, has the perspective (0,1), (0,0), (1,0), (1,1): the unit square a quarter turn round |
| TransformLemmas.NativeSideExample | server/TSRController.ts:222-235 | a 1280 x 720 source recorded at 90 degrees, with the cutout (0, 0, 1280, 720) on a 1280 x 720 CUTOUT output, has the perspective (7/32, 25/18), (7/32, -7/18), (25/32, -7/18), (25/32, 25/18): turned upright and overhanging the output at top and bottom |
| TransformLemmas.UnrotatedCellClip | server/TSRController.ts:298-313 | a MULTIVIEW cell whose cutout has no placement rotation is clipped to the square of side cell.scale centred on the cell's normalised offset |
| Layout.Compare | server/TSRController.ts:199-203 | the comparator is -1 exactly for MULTIVIEW before non-MULTIVIEW, 1 for the reverse, and 0 otherwise |
| Layout.SortOutputs | server/TSRController.ts:199-205 | the sort is a permutation ordered by the comparator, and it keeps the relative order within each kind (stable) |
| Layout.MultiviewsFirst | server/TSRController.ts:199-203 | MULTIVIEW outputs followed by CUTOUT outputs are in comparator order |
| Layout.PartitionIsPermutation | server/TSRController.ts:199-203 | the MULTIVIEW and CUTOUT outputs together are the outputs, as a multiset and by count |
| Layout.FilterIdempotent | server/TSRController.ts:199-203 | filtering a filtered list again keeps it, and the other filter empties it, so the sort's two parts are exactly the two kinds |
| Layout.RoleTagInjective | server/TSRController.ts:209-269 | the four key suffixes `_source`, `_mvbg`, `_mv_<id>` and `_mvbg_<id>` differ for different roles and ids |
| Layout.LayerKey | server/TSRController.ts:268-269 | a layer key is `'output' + index + tag`, non-empty |
| Layout.LayerKeyInjective | server/TSRController.ts:205-269 | two layer keys are equal exactly when the output index and the role are equal |
| Layout.KeyPrefixOwns | server/TSRController.ts:205-269 | a layer key starts with `output<i>_` exactly for its own output index i |
| Layout.CellBgNumber | server/TSRController.ts:267-275 | cell k's background plays on layer 100 + 10k, a multiple of 10 above layer 10 |
| Layout.CellNumber | server/TSRController.ts:276-281 | cell k's picture plays on the layer directly above its background |
| Layout.CellNumbersDistinct | server/TSRController.ts:267-281 | different cells use different layer numbers, and no cell uses layer 10 |
| Layout.CasparMapping | server/TSRController.ts:210-215 | a mapping has device CASPARCG, device id `casparcg0`, and the given channel and layer |
| Strings.NatToString | server/TSRController.ts:209 | the decimal rendering of an index is non-empty and all digits, with no leading zero |
| Strings.NatToStringInjective | server/TSRController.ts:209 | different indices render differently |
| Strings.IntToString | server/TSRController.ts:539 | the rendering of any integer is non-empty; it is all digits exactly when the integer is non-negative |
| Strings.IntToStringInjective | server/TSRController.ts:539 | different device numbers render differently |
| Referrer.Reset | server/TSRController.ts:512-514 | after `reset()` no key is held |
| Referrer.MediaRef | server/TSRController.ts:515-517 | a media key is `media_` followed by the file name |
| Referrer.InputRef | server/TSRController.ts:538-540 | an input key is `input_` followed by type, device and format joined by `_` |
| Referrer.RefKindsDisjoint | server/TSRController.ts:515-540 | no media key equals an input key, so a media request never routes to an input layer or the reverse |
| Referrer.MediaRefInjective | server/TSRController.ts:515-517 | two files share a media key exactly when they are the same file |
| Referrer.InputRefInjective | server/TSRController.ts:538-540 | for input types without `_`, two inputs share a key exactly when type, device and format are all equal |
| Referrer.InputRefAmbiguous | server/TSRController.ts:538-540 | an input type containing `_` makes two different inputs share a key |
| Referrer.GetRef | server/TSRController.ts:562-578 | `getRef` answers exactly when the key holds a non-empty layer, with a ROUTE on the requested layer and mixer to that layer |
| Referrer.Media | server/TSRController.ts:518-537 | `media` returns a ROUTE and leaves the cache alone when the file's key is held; otherwise it returns a looping MEDIA object and records the layer |
| Referrer.Input | server/TSRController.ts:541-561 | `input` works like `media`, with an INPUT object and the input key |
| Referrer.FreshMediaPlays | server/TSRController.ts:518-537 | on an empty cache, `media(L, f)` plays f and leaves the cache `{media_f: L}` |
| Referrer.RepeatedMediaRoutes | server/TSRController.ts:518-537 | after `media(L1, f)`, `media(L2, f)` is a ROUTE on L2 to L1 and leaves the cache unchanged |
| Referrer.ResetPlaysAgain | server/TSRController.ts:512-537 | a media request that a cache holding its file turns into a ROUTE to the cached layer plays the file (looping) after `reset()` |
| Referrer.RepeatedInputRoutes | server/TSRController.ts:541-561 | after `input(L1, ...)`, the same input on L2 is a ROUTE to L1 and leaves the cache unchanged |
| Referrer.EmptyLayerIsNotARef | server/TSRController.ts:562-564 | a key cached with the empty layer is falsy: the request plays, and the key now maps to the new layer |
| Referrer.Answer | server/TSRController.ts:518-561 | one request is a ROUTE to the cached layer with the cache unchanged when its key is held; otherwise it is its own object and records its layer |
| Referrer.ServeAppend | server/TSRController.ts:518-581 | serving two runs of requests one after the other is serving their concatenation |
| Referrer.ServeCache | server/TSRController.ts:579-581 | after a run, a key is held exactly when it was held before or some request with a named layer asked for it; it then maps to its first owner |
| Referrer.ServeDomain | server/TSRController.ts:579-581 | a run adds exactly the keys it requests to the cache, and keeps the layer of every key it does not request |
| Referrer.ServeDedup | server/TSRController.ts:518-581 | the i-th object of a run is a ROUTE to the key's owner exactly when its key was held before the run or claimed by an earlier request; otherwise it is its own object |
| Referrer.ServeShape | server/TSRController.ts:518-578 | every object of a run has an empty id, the request's layer, `while: 1` and the request's mixer |
| Referrer.FreshRunRoutesBackwards | server/TSRController.ts:518-581 | on an empty cache, every ROUTE points at an earlier object that plays its content on the routed layer |
| Controller.LookupError | server/TSRController.ts:217-220 | a lookup fails exactly when the cutout or its source is missing; a missing cutout is reported as CutoutNotFound of its id, before the source is looked at |
| Controller.InputError | server/TSRController.ts:237-249 | an input raises no error exactly when it is a media file |
| Controller.ErrorKinds | server/TSRController.ts:217-249 | which error is thrown: CutoutNotFound(id) for a missing cutout, SourceNotFound(cutout.source) for a missing source, NotImplemented for a DeckLink input, UnknownInputType(type) for any other input type |
| Controller.UseError | server/TSRController.ts:217-249 | a cutout can be shown exactly when the lookup succeeds and its source plays a media file |
| Controller.CutoutStep | server/TSRController.ts:207-249 | a CUTOUT output maps `output<i>_source` to layer 10 whatever happens; it adds one object exactly when it does not fail; it touches no other output's keys |
| Controller.CellStep | server/TSRController.ts:266-343 | a cell maps its two keys to layers 100 + 10k and 100 + 10k + 1 before any check; a failed lookup adds nothing; a bad input adds only the black box; success adds two objects |
| Controller.CellsFrom | server/TSRController.ts:264-345 | the cells only extend the timeline, touch only their own output's keys, and keep every object's layer mapped |
| Controller.MultiviewStep | server/TSRController.ts:250-346 | a MULTIVIEW output maps `output<i>_mvbg` to layer 10, always pushes its background, and touches only its own keys |
| Controller.OutputStep | server/TSRController.ts:205-348 | one output only extends the timeline, changes only its own keys, and keeps every object's layer mapped |
| Controller.OutputsFrom | server/TSRController.ts:205-348 | the output loop only extends the timeline and keeps every object's layer mapped |
| Controller.FallbackId | server/TSRController.ts:353 | the fallback id is non-empty |
| Controller.AssignIds | server/TSRController.ts:352-354 | the id pass changes only ids; it keeps non-empty ids, names object i `Unnamed<i>` when it has none, and leaves no id empty |
| Controller.UpdateTimeline | server/TSRController.ts:196-354 | every object of an update plays on a mapped layer, even after a throw; a successful update names every object |
| Plans.CutoutPlan | server/TSRController.ts:207-249 | a CUTOUT output fails with its cutout's lookup-or-input error and then requests nothing; otherwise its cutout and source exist, the input is a media file, and it requests exactly that file on `output<i>_source` with the CUTOUT position mixer |
| Plans.CellPlan | server/TSRController.ts:266-343 | a cell requests nothing on a failed lookup, only its black box on a bad input, and its box and picture on success |
| Plans.CellPlanRequests | server/TSRController.ts:314-333 | once the lookup succeeds, a cell first requests `black` on `output<i>_mvbg_<id>` with the cell's clip mixer; when the source is a media file, it then requests that file on `output<i>_mv_<id>` with the position and clip mixers merged |
| Plans.CellsPlan | server/TSRController.ts:264-345 | the cells' requests all name layers and carry the fixed transitions |
| Plans.MultiviewPlan | server/TSRController.ts:250-346 | a MULTIVIEW output always first requests `multiview_bg` without a mixer on `output<i>_mvbg`, even when a cell then fails; the rest are its cells' requests and their error; all name layers and carry the fixed transitions |
| Plans.OutputPlan | server/TSRController.ts:205-348 | an output's requests all name layers and carry the fixed transitions |
| Plans.OutputsPlan | server/TSRController.ts:205-348 | the loop's requests all name layers and carry the fixed transitions |
| Plans.UpdatePlan | server/TSRController.ts:196-348 | an update's requests all name layers and carry the fixed transitions |
| Plans.CutoutStepServes | server/TSRController.ts:207-249 | a CUTOUT output step is its plan served through the current cache |
| Plans.CellStepServes | server/TSRController.ts:266-343 | a cell step is its plan served through the current cache |
| Plans.ServesThen | server/TSRController.ts:205-348 | two steps in sequence serve the concatenation of their plans |
| Plans.CellsFromServes | server/TSRController.ts:264-345 | the cell loop serves the cells' plan |
| Plans.MultiviewStepServes | server/TSRController.ts:250-346 | a MULTIVIEW step serves its plan |
| Plans.OutputStepServes | server/TSRController.ts:205-348 | an output step serves its plan |
| Plans.OutputsFromServes | server/TSRController.ts:205-348 | the output loop serves the loop's plan |
| Plans.UpdateServesPlan | server/TSRController.ts:196-354 | an update has its plan's error and the served cache; its timeline is the served objects, passed through the id pass when nothing failed |
| BuildProofs.UseErrorIsUnusable | server/TSRController.ts:217-249 | a cutout raises no error exactly when it exists, its source exists, and the source plays a file |
| BuildProofs.CellsErrorNone | server/TSRController.ts:266-345 | the cells raise no error exactly when every cell's cutout is usable |
| BuildProofs.OutputErrorNone | server/TSRController.ts:205-348 | an output raises no error exactly when every cutout it shows is usable |
| BuildProofs.FirstErrorNone | server/TSRController.ts:205-348 | a list of outputs raises no error exactly when every output's cutouts are usable |
| BuildProofs.CellsPlanError | server/TSRController.ts:266-345 | the cell loop's error is that of the first failing cell |
| BuildProofs.OutputPlanError | server/TSRController.ts:205-348 | an output's plan has the output's own error |
| BuildProofs.OutputsPlanError | server/TSRController.ts:205-348 | the loop's error is that of the first failing output |
| BuildProofs.OutputStepError | server/TSRController.ts:205-348 | one output step throws exactly the output's own error |
| BuildProofs.UpdateError | server/TSRController.ts:199-348 | an update throws the error of the first failing output in sorted order, and throws none exactly when every shown cutout of every output is usable |
| BuildProofs.TotalAppend | server/TSRController.ts:205-348 | the object count of two lists of outputs is the sum of their counts |
| BuildProofs.TotalOfPartition | server/TSRController.ts:199-205 | sorting the outputs does not change their total object count |
| BuildProofs.CellsPlanSize | server/TSRController.ts:264-345 | usable cells request two objects each |
| BuildProofs.OutputsPlanSize | server/TSRController.ts:205-348 | usable outputs request their object counts |
| BuildProofs.UpdateObjectCount | server/TSRController.ts:205-348 | a successful update builds one object per CUTOUT output and 1 + 2 × cells per MULTIVIEW output |
| BuildProofs.OutputStepMapsPrimary | server/TSRController.ts:207-258 | an output step maps its first key (`_source` or `_mvbg`) to layer 10 of its channel |
| BuildProofs.StepKeepsOthers | server/TSRController.ts:205-269 | a step for output i leaves the first key of every other output as it was |
| BuildProofs.OutputsFromMaps | server/TSRController.ts:205-348 | every output the loop reaches has its first key mapped, even when a later one throws |
| BuildProofs.UpdateMapsReached | server/TSRController.ts:205-286 | every output reached before the first error, and the failing one itself, has `output<i>_...` mapped at its sorted index i |
| BuildProofs.UpdateMapsAll | server/TSRController.ts:205-258 | after a successful update every output's first key is mapped at its sorted index |
| BuildProofs.CellStepMappings | server/TSRController.ts:266-286 | the mappings a cell writes do not depend on the cache or the timeline |
| BuildProofs.CellsFromMappings | server/TSRController.ts:264-345 | the mappings of the cell loop do not depend on the cache or the timeline |
| BuildProofs.OutputStepMappings | server/TSRController.ts:205-348 | the mappings of an output step do not depend on the cache or the timeline |
| BuildProofs.OutputsFromMappings | server/TSRController.ts:205-348 | the mappings of the loop do not depend on the cache or the timeline |
| BuildProofs.UpdateIgnoresCache | server/TSRController.ts:196-354 | the starting cache changes only the MEDIA-or-ROUTE choice: error, mappings, object count, layers and mixers are the same |
| BuildProofs.UpdateIsServedPlan | server/TSRController.ts:196-354 | an update's objects have the layers and contents of its plan served through the starting cache |
| BuildProofs.UpdateRoutes | server/TSRController.ts:316-335 | object j is a ROUTE exactly when its content was cached before the update or asked for by an earlier object; it routes to the cached layer or the first asker's layer; otherwise it plays its own content |
| BuildProofs.UpdateObjectsShaped | server/TSRController.ts:352-354 | every object has `while: 1` and fixed-transition mixers, and a successful update gives distinct ids to the objects it names |
| BuildProofs.FallbackIdInjective | server/TSRController.ts:353 | `Unnamed<m>` and `Unnamed<n>` are equal exactly when m = n |
| Rerun.RerunRoutesEverything | server/TSRController.ts:196-197 | as written, the first update from an empty cache plays its first object; a second update with the same configuration builds only ROUTEs, and its first object routes to its own layer |
| Rerun.CachedAfterFirstRun | server/TSRController.ts:579-581 | after the first run every requested key is held |
| Rerun.FirstRunPlaysFirst | server/TSRController.ts:518-537 | on an empty cache the first request is never a ROUTE |
| Rerun.SecondRunSelfRoute | server/TSRController.ts:562-578 | on the second run the first request routes to its own layer |
| Rerun.Rebuild | server/TSRController.ts:196-197 | the corrected update, from a reset cache: the first object plays, and every ROUTE points back at an earlier object playing on the routed layer |
| Rerun.RoutesPointBack | server/TSRController.ts:196-197 | an update from a reset cache has the properties `Rebuild` promises |
| Rerun.RebuildKeepsLayout | server/TSRController.ts:196-354 | the correction changes nothing but the MEDIA-or-ROUTE choice |
| Scenarios.MissingCutout | server/TSRController.ts:207-218 | one CUTOUT output naming a missing cutout throws `CutoutNotFound`, builds no object, keeps the cache, and still leaves `output0_source` mapped to channel 1 layer 10 |
| Scenarios.CellRequests | server/TSRController.ts:316-335 | a usable cell asks for `black` on its `_mvbg_<id>` layer, then for its source's file on its `_mv_<id>` layer |
| Scenarios.TwoCellPlan | server/TSRController.ts:250-335 | a two-cell MULTIVIEW update requests the background, then box and picture for each cell, with these exact layers and files |
| Scenarios.TwoCellKeys | server/TSRController.ts:316-335 | in that update both black boxes share a key, both pictures share a key, and the background, black and picture keys differ |
| Scenarios.SecondCellRoutes | server/TSRController.ts:316-335 | on an empty cache the first cell's box and picture play, and the second cell's box and picture ROUTE to the first cell's layers |
| Scenarios.RepeatedPairsRoute | server/TSRController.ts:518-581 | five requests where 3 repeats 1's key and 4 repeats 2's key: 1 and 2 play, 3 and 4 route to them |
| Scenarios.FirstOfKeyPlays | server/TSRController.ts:518-581 | on an empty cache the first request for a key plays, and a later request for that key routes to its layer |

## Left out

- Device plumbing is not modelled: the `Conductor` setup, `init`, `_addTSRDevice`, `_removeTSRDevice` and event logging (`server/TSRController.ts:41-86`, `357-397`). The build's result is the returned mappings, timeline, cache and error. Sending them to the resolver (`setMapping`, the `timeline` assignment) is I/O.
- `console.log` of the timeline is left out. So is the `sourceDimensions` value, which is computed and never used (`server/TSRController.ts:411-415`).
- The hard-coded `tmpSources`, `tmpCutouts` and `tmpOutputs` tables are inputs to `UpdateTimeline`, not constants.
- Floating point is not modelled: all numbers are reals. Cosine and sine of degrees are a parameter with no definition; lemmas state the facts they need about them as preconditions.
- Transforms.CutoutTransform: a zero cutout or output width or height gives JavaScript `Infinity` or `NaN`. The model divides by zero to 0 (`Quot`), and lemmas about stretching require non-zero sizes.
- `compose` with no arguments throws in the package. The controller never calls it that way, so `Compose` requires at least one matrix.
- Controller.UpdateTimeline: errors are modelled by kind (`CutoutNotFound`, `SourceNotFound`, `NotImplemented`, `UnknownInputType`), not by message text.
- Controller.UpdateTimeline: a JavaScript object used as a map has inherited keys (`toString`, `__proto__`). A lookup of such a cutout id is not modelled; map membership stands for a truthy lookup.
- Strings.NatToStringInjective: only the direction that needs proof is stated; equal numbers rendering equally is immediate.
- Referrer.InputRefInjective: requires input types without `_`, because `Referrer.InputRefAmbiguous` shows the key is ambiguous otherwise. `input` is never called by the build, so this does not affect it.
- `Referrer.Input` renders the device number as an integer. A non-integer device number (JavaScript renders `1.5`) is not modelled.
- Two cells of one MULTIVIEW output with the same cutout id write the same layer keys, and the second overwrites the first's mappings. The model reproduces this, but no lemma is stated about it.
- The other server and client files (data handling, file watching, the cutout manager UI, the source selector) are I/O or user-interface code and are not part of this model.

## Findings

| source | as written | input that shows it | evidently intended | confidence | as-written member | corrected member |
|---|---|---|---|---|---|---|
| server/TSRController.ts:196-197 | `updateTimeline` clears `mappings` and `timeline` but never calls `this.ccg.reset()`, so the referrer's cache survives from the previous update | any configuration with at least one usable output, updated twice: the second update turns every object into a ROUTE, and the first object routes to its own layer, so nothing plays | each update starts from an empty cache (`reset()` at `server/TSRController.ts:512-514` exists for this), so the first object for each content plays and only later ones route | not executed | Rerun.RerunRoutesEverything | Rerun.Rebuild |
