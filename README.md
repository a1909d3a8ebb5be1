# ro-crate-html-lite: static map geometry and crate indexing in Dafny

This project models two deterministic parts of ro-crate-html-lite and proves properties about them.

1. The static-map renderer in `lib/staticmap.js`, working on a WKT geometry that has already been parsed. The model covers:
   - the bounding box and the zoom it recomputes;
   - the slippy-map longitude projection;
   - the grid of tiles it requests and where each tile is drawn;
   - the antimeridian (±180°) splitter for polygon rings and line strings;
   - the letterbox/pillarbox fit of the world view;
   - the shape of the `generateStaticMap` result.
2. The preview indexing in `lib/preview.js`:
   - `expandPropertyValue`, which classifies and filters property values;
   - `initializeProp`, which creates per-URI property entries;
   - `quadTreeId`, the page path cut from an MD5 digest;
   - `roCrateToJSON`, which builds the `pages`, `types`, `typeUrls` and `ids` dictionaries.

Coordinates and pixel positions are exact `real`s. Tile and zoom numbers are mathematical integers.

The model keeps the code's mixed style:
- Projections and placements are functions.
- The code's loops are methods with loop invariants, each proved equal to a specification function:
  - the dateline scan with `break`;
  - the ring split that pushes into `westPart`/`eastPart`;
  - the line split that reassigns `currentSegment`;
  - the nested tile loops with their zoom-0 `continue`;
  - `expandPropertyValue`'s `continue` loop;
  - the page pass with its `break`;
  - the type, property and reverse-property loops of `roCrateToJSON`.
- The per-entity object that `initializeProp` mutates is a class, `Preview.EntityLite`.

Things left abstract are passed in as parameters:
- the Mercator latitude term (`merc`);
- which tiles were fetched (`fetched`);
- the world tile image (`worldTile`);
- MD5 (`md5`, returning 32 lower-case hex digits);
- whether `new URL` succeeds (`isUrl`);
- the RO-Crate library's `getEntity` and `resolveTerm`, as function fields of `Crate.Crate`.

Module layout:
- `Wrappers`: `Option`.
- `Geometry`: coordinates and the parsed geometry.
- `Projection`: `lon2tile`, `lon2pixel`, `lat2tile`, `lat2pixel`.
- `Zoom`: bounding box and zoom.
- `TileGrid`: requested tiles, half-extents, offsets.
- `Dateline`: crossing detection, interpolation, ring split.
- `LineSplit`: line split.
- `WorldView`: world fit and projection.
- `StaticMap`: drawn shapes, `generateMap`, `generateStaticMap`.
- `Crate`: the crate as the preview sees it.
- `Preview`: everything from `lib/preview.js`.

Modelling conventions:
- `resolveTerm` returns `""` for an unresolved term, standing in for JavaScript's falsy `undefined`.
- A property entry's `label` is the field `caption`, because `label` is a Dafny keyword.
- A `null` url is `None`.
- `ids` stores the entity object as it stands when it is stored. Nothing mutates it afterwards.

Split outputs use tagged vertices, `Original(c) | Boundary(c)`. This keeps "the inserted points" well defined even when an original vertex already lies on ±180. The drawn path is the sequence of the vertices' coordinates (`Dateline.Coords`).

Behaviours of the code that the model keeps as written:
- A zero longitude or latitude span makes the code's ratio `width / 0 = Infinity` (`Zoom.Ratio.Unbounded`), so that ratio drops out of the minimum; nothing falls back to the default zoom. Identical vertices make both spans zero, and the zoom is then 19.
- The dateline splitters insert the latitude the code computes (`Dateline.LatAsWritten`), even where it is not the point where the edge meets ±180 (see "## Findings").
- `generateStaticMap` without the world flag returns the main map itself, not `{ main, world: undefined }` (`StaticMap.StaticMap.MainOnly`).
- The root page is overwritten when the root entity itself has a configured type. `Preview.RootPage` therefore needs the root not to have one.
- The crossing scan looks only at pairs `ring[i], ring[i+1]`, so a ring whose only long edge is the closing one is drawn whole. The split itself walks the cyclic pairs. Both are modelled as written.

## Model

| member | source | states |
|---|---|---|
| Geometry.Vertices | lib/staticmap.js:339-341 | a point gives its one coordinate, a line its coordinates, and a polygon exactly the vertices of its rings (`flat()`) |
| Geometry.WellFormedHasVertices | lib/staticmap.js:339-350 | a drawable geometry has at least one vertex, so the bounding box exists |
| Projection.Pow2 | lib/staticmap.js:11 | `Math.pow(2, zoom)` is at least 1 |
| Projection.Pow2Monotone | lib/staticmap.js:11 | the number of tiles per axis never shrinks as zoom grows |
| Projection.Lon2TileInGrid | lib/staticmap.js:10-12 | a longitude in [-180, 180) gets a tile column in [0, 2^zoom) |
| Projection.Lon2TileAtAntimeridian | lib/staticmap.js:10-12 | longitude 180 gives column 2^zoom, one past the grid |
| Projection.Lon2PixelInMap | lib/staticmap.js:19-21 | a longitude in [-180, 180] projects into [0, 2^zoom · tileSize] |
| Projection.LonMonotone | lib/staticmap.js:10-21 | both longitude projections are monotone |
| Projection.Lon2PixelShift | lib/staticmap.js:19-21 | moving a longitude by d moves its pixel by d/360 of the world width |
| Projection.PixelInsideTile | lib/staticmap.js:10-26 | the pixel of a coordinate lies inside the tile that `lon2tile` / `lat2tile` names for it |
| Projection.PixelToTile | lib/staticmap.js:10-26 | that tile is unique: a tile containing the pixel is the floor-tile |
| Projection.TileAtZoomZero | lib/staticmap.js:10-17 | at zoom 0 every in-range fraction lands in tile 0 |
| Projection.TimesIsProduct | lib/staticmap.js:20 | the repeated addition used for scaling is multiplication |
| Projection.TimesMonotone | lib/staticmap.js:20 | scaling by 2^zoom or by tileSize is monotone |
| Projection.TimesStrict | lib/staticmap.js:20 | scaling by a positive count is strictly monotone |
| Projection.TimesAdd | lib/staticmap.js:20 | scaling distributes over addition |
| Projection.Ceil | lib/staticmap.js:371-372 | `Math.ceil`: the least integer not below its argument |
| Zoom.Bounds | lib/staticmap.js:347-350 | every vertex lies in the box, and each of the four bounds is attained by some vertex |
| Zoom.BoundsProper | lib/staticmap.js:353-354 | the spans of a bounding box are non-negative |
| Zoom.ZoomSearch | lib/staticmap.js:357 | the result z is at most k, has 2^z ≤ q unless z = 0, and has q < 2^(z+1) unless z = k |
| Zoom.ClampedLog2 | lib/staticmap.js:357 | `max(0, min(19, floor(log2 q)))`, characterised by the same three bounds with k = 19 |
| Zoom.ClampedLog2Unique | lib/staticmap.js:357 | those bounds determine the zoom uniquely |
| Zoom.ZoomSearchUnique | lib/staticmap.js:357 | the search between 0 and any bound k returns the only zoom meeting the three bounds |
| Zoom.ClampedLog2Monotone | lib/staticmap.js:357 | a larger ratio never gives a smaller zoom |
| Zoom.ZoomOfRatioMonotone | lib/staticmap.js:357 | the same holds with a zero span (ratio +∞) counted as the largest ratio |
| Zoom.SpanRatioAntitone | lib/staticmap.js:357 | `width / lonSpan` shrinks as the span grows, a zero span being +∞ |
| Zoom.MinRatioMonotone | lib/staticmap.js:357 | `Math.min` of the two ratios is monotone in both |
| Zoom.BoxRatioAntitone | lib/staticmap.js:357 | `Math.min(width / lonSpan, height / latSpan)` never grows when either span grows |
| Zoom.FitZoom | lib/staticmap.js:353-357 | the recomputed zoom is in [0, 19] |
| Zoom.FitZoomAntitone | lib/staticmap.js:353-357 | the zoom never increases when a span grows |
| Zoom.IdenticalVerticesMaxZoom | lib/staticmap.js:353-357 | identical vertices (both spans zero) give zoom 19 |
| Zoom.MapZoom | lib/staticmap.js:345-358 | a point keeps the caller's zoom; for a line or polygon the caller's zoom is discarded and the result is in [0, 19] |
| TileGrid.RequestTiles | lib/staticmap.js:384-403 | the nested loops (x outer, y inner, zoom-0 `continue`) request exactly the tiles of `Grid` |
| TileGrid.GridMember | lib/staticmap.js:385-390 | a tile is requested iff it is in the rectangle and, at zoom 0, is (0, 0) |
| TileGrid.CenterInGrid | lib/staticmap.js:385-390 | away from zoom 0 the square around a tile holds that tile |
| TileGrid.ColumnMember | lib/staticmap.js:386-390 | the same for one column |
| TileGrid.GridOrdered | lib/staticmap.js:385-386 | requests are strictly ordered by x, then by y, so no tile is requested twice |
| TileGrid.ColumnOrdered | lib/staticmap.js:386 | a column is strictly ordered by y and stays inside its x and y range |
| TileGrid.GridLength | lib/staticmap.js:385-386 | away from zoom 0 there are (x1 − x0 + 1)(y1 − y0 + 1) requests, with indices not clamped |
| TileGrid.ColumnLength | lib/staticmap.js:386 | away from zoom 0 a column has y1 − y0 + 1 requests |
| TileGrid.ZoomZeroGrid | lib/staticmap.js:388-390 | at zoom 0 the request list is [(0, 0)] if the rectangle holds it, else empty |
| TileGrid.HalfTiles | lib/staticmap.js:371-372 | `ceil((size/2)/tileSize)`: the least number of tiles covering half the canvas |
| TileGrid.ProjectedInsideTile | lib/staticmap.js:414-431 | after the centring shift a coordinate is still drawn inside its own tile's square |
| TileGrid.TileOriginShift | lib/staticmap.js:417-418 | tile origins are additive in the tile index |
| TileGrid.TilesCoverCanvas | lib/staticmap.js:368-377 | the outermost requested tiles reach both canvas edges |
| Dateline.CrossesDateline | lib/staticmap.js:442-450 | the scan with `break` returns true iff some pair `path[i], path[i+1]` differs in longitude by more than 180 |
| Dateline.CrossingIsDirected | lib/staticmap.js:475-476 | with longitudes in range, a crossing is exactly one of going west and going east |
| Dateline.RatioAsWrittenBounds | lib/staticmap.js:479 | the ratio as written lies in [0, 1) |
| Dateline.LatAsWrittenBetween | lib/staticmap.js:479-480 | so the inserted latitude as written lies between the two endpoints' latitudes |
| Dateline.Interpolated | lib/staticmap.js:480 | linear interpolation with t in [0, 1] stays between its endpoints |
| Dateline.LatAsWrittenMisplaced | lib/staticmap.js:479-480 | from (170, 0) to (−170, 10), the code gives latitude 5/17, the crossing point is at latitude 5, and the as-written point is not on the segment |
| Dateline.FractionReachesDateline | lib/staticmap.js:469-490 | the corrected fraction is in [0, 1] and moves along the wrapped segment exactly to +180 (going west) or −180 (going east) |
| Dateline.LatAtDatelineBetween | lib/staticmap.js:480 | the corrected latitude also lies between the endpoints' latitudes |
| Dateline.SplitRing | lib/staticmap.js:457-492 | the splitting loop produces exactly `WestUpTo` / `EastUpTo` of the whole ring, whose boundary vertices carry the latitude as written |
| Dateline.Coords | lib/staticmap.js:494-520 | the drawn path has one point per vertex, namely the vertex's coordinate |
| Dateline.SplitAppend | lib/staticmap.js:463-489 | originals and boundary latitudes of concatenated parts concatenate |
| Dateline.WestKeepsWestern | lib/staticmap.js:462-489 | the original vertices of the west part are exactly the ring's negative-longitude vertices, in order; its boundary vertices carry the crossings' latitudes, in order |
| Dateline.EastKeepsEastern | lib/staticmap.js:462-489 | the same for the east part and the non-negative longitudes, with the same latitudes |
| Dateline.WesternEasternPartition | lib/staticmap.js:462-466 | every vertex goes to exactly one part (as multisets, west plus east is the ring) |
| Dateline.SplitRingSizes | lib/staticmap.js:457-490 | \|west\| + \|east\| = n + 2 · crossings |
| Dateline.WestLongitudes | lib/staticmap.js:462-489 | every west vertex has longitude in [−180, 0), and boundary vertices sit at −180 |
| Dateline.EastLongitudes | lib/staticmap.js:462-489 | every east vertex has longitude in [0, 180], and boundary vertices sit at 180 |
| Dateline.BandSafe | lib/staticmap.js:494-520 | a closed path inside a 180°-wide band has no edge, the closing one included, longer than 180° |
| Dateline.PartInBand | lib/staticmap.js:494-520 | the same for a part given as tagged vertices |
| Dateline.SplitRingSafe | lib/staticmap.js:452-520 | with longitudes in range, neither part (closing edge included) has an edge longer than 180° |
| LineSplit.SplitLine | lib/staticmap.js:551-613 | the segment loop produces exactly `LineSegments`, whose boundary points carry the latitude as written |
| LineSplit.LineSegmentsKeepInput | lib/staticmap.js:555-601 | dropping the inserted boundary points and concatenating the segments gives back the input line |
| LineSplit.LineUpToKeepsInput | lib/staticmap.js:555-601 | the loop invariant for that: finished segments plus the current one hold the prefix read so far |
| LineSplit.LineStepKeepsInput | lib/staticmap.js:555-601 | one iteration adds exactly the vertex it reads to the originals held so far |
| LineSplit.KeepsAcross | lib/staticmap.js:575-598 | closing a segment with a boundary point and opening the next with one adds no original vertex |
| LineSplit.AllOriginalsSnoc | lib/staticmap.js:581-598 | appending a finished segment appends its originals |
| LineSplit.OriginalsSnoc | lib/staticmap.js:557 | appending a vertex appends it to the originals iff it is original |
| LineSplit.LineSegmentCount | lib/staticmap.js:555-613 | a line has crossings + 1 segments |
| LineSplit.LineUpToCount | lib/staticmap.js:555-601 | one finished segment per crossing so far, and the current segment is non-empty after an original vertex |
| LineSplit.Tagged | lib/staticmap.js:614-624 | an unsplit line is its own vertices, all original |
| LineSplit.NoCrossingLineUpTo | lib/staticmap.js:555-601 | without a crossing, the loop only accumulates the input |
| LineSplit.LineStepExtends | lib/staticmap.js:555-566 | an iteration over an edge that does not cross only appends the vertex to the current segment |
| LineSplit.NoCrossingOneSegment | lib/staticmap.js:614-624 | without a crossing, the split is the one segment made of the input itself |
| LineSplit.SafeAppend | lib/staticmap.js:557-578 | appending a vertex that does not cross from the last one keeps a path crossing-free |
| LineSplit.LineUpToSafe | lib/staticmap.js:555-601 | the invariant that every segment so far is crossing-free |
| LineSplit.LineSegmentsSafe | lib/staticmap.js:551-613 | with longitudes in range, no segment has consecutive vertices more than 180° apart |
| LineSplit.LineUpToPaired | lib/staticmap.js:575-598 | the invariant relating each segment to the next |
| LineSplit.LineSegmentsPaired | lib/staticmap.js:575-598 | each segment ends with a boundary point on its own side (180 going west, −180 going east), and the next starts with the opposite side's point at the same latitude |
| WorldView.WiderMeansShort | lib/staticmap.js:73 | `width / height > aspect` iff `height · aspect < width` (a zero height counts as wider) |
| WorldView.FitWorld | lib/staticmap.js:70-83 | the drawn image fits the canvas, keeps the tile's aspect ratio, fills one dimension, is centred (`2·offset + size = canvas` on both axes), and one offset is 0 |
| WorldView.FitWorldCentred | lib/staticmap.js:70-83 | the fit lies on the canvas and is centred on both axes |
| WorldView.FitIsLargest | lib/staticmap.js:70-83 | every rectangle of that aspect that fits the canvas is no larger than the fit |
| WorldView.SquareFillsSquare | lib/staticmap.js:70-83 | a square tile on a square canvas fills it with no offsets |
| WorldView.WorldXInside | lib/staticmap.js:97-99 | for any centred fit (the world fit is one, by `FitWorldCentred`), longitudes in [−180, 180] project into [offsetX, offsetX + drawWidth], inside the canvas |
| WorldView.WorldXMonotone | lib/staticmap.js:99 | the world-view longitude projection is monotone |
| WorldView.WorldYInside | lib/staticmap.js:100-102 | for any centred fit, a latitude whose Mercator fraction is in [0, 1] projects into [offsetY, offsetY + drawHeight], inside the canvas |
| StaticMap.DrawRing | lib/staticmap.js:440-533 | one ring is drawn as the areas of `RingShapes`: the non-empty west and east parts if it crosses, else the ring itself |
| StaticMap.DrawPolygon | lib/staticmap.js:434-534 | a polygon is drawn ring after ring |
| StaticMap.DrawLine | lib/staticmap.js:535-624 | a line is drawn as the strokes of its segments if it crosses, else as itself |
| StaticMap.DrawGeometry | lib/staticmap.js:433-638 | each geometry type is drawn as `Shapes` prescribes; a point is one marker |
| StaticMap.Strokes | lib/staticmap.js:581-612 | one stroke per segment, in order, each along the segment's points |
| StaticMap.UncrossedPolygon | lib/staticmap.js:521-533 | when no ring crosses, ring k is drawn as one closed area of exactly its vertices in order |
| StaticMap.UncrossedLine | lib/staticmap.js:614-624 | a line that does not cross is drawn as one stroke of exactly its vertices |
| StaticMap.PathSafeCoords | lib/staticmap.js:551-613 | a crossing-free tagged path draws a path the scan finds no crossing in |
| StaticMap.ClosedSafeOpen | lib/staticmap.js:494-520 | a closed path without long edges has no long consecutive pair |
| StaticMap.RingShapesSafe | lib/staticmap.js:440-533 | with longitudes in range no area drawn for a ring crosses the dateline |
| StaticMap.PolygonShapesSafe | lib/staticmap.js:434-534 | the same for every ring of a polygon |
| StaticMap.LineShapesSafe | lib/staticmap.js:535-624 | no stroke drawn for a line crosses the dateline |
| StaticMap.ShapesSafe | lib/staticmap.js:433-638 | for every geometry with longitudes in range, no drawn shape crosses the dateline |
| StaticMap.PartsNonEmpty | lib/staticmap.js:457-492 | once a crossing edge has been split, both parts are non-empty |
| StaticMap.CrossingRingTwoAreas | lib/staticmap.js:494-520 | a crossing ring is drawn as exactly two areas |
| StaticMap.LineStrokeCount | lib/staticmap.js:551-624 | a line is drawn as crossings + 1 strokes |
| StaticMap.NoCrossingCount | lib/staticmap.js:541-549 | a line without a crossing has zero crossings at every prefix |
| StaticMap.ChooseZoom | lib/staticmap.js:345-358 | the reassigned `zoom` parameter ends as `MapZoom` |
| StaticMap.PlaceFetched | lib/staticmap.js:414-424 | the `forEach` places exactly the fetched tiles, in request order |
| StaticMap.PlaceTilesFilter | lib/staticmap.js:414-424 | a placement is drawn iff its tile was requested and fetched, and it sits at `x · tileSize − centerPixelX + width/2` (likewise y) |
| StaticMap.GenerateMap | lib/staticmap.js:334-652 | `generateMap`'s zoom, centre, tiles, placements and shapes are those of `MainMapOf` |
| StaticMap.RenderAt | lib/staticmap.js:364-438 | at a given zoom and centre, the requested tiles, centre pixel, placements and shapes are those of `MainMapAt` |
| StaticMap.CenterDrawnAtMiddle | lib/staticmap.js:364-365 | the centre of the bounding box is drawn at the middle of the canvas |
| StaticMap.PointAtMiddle | lib/staticmap.js:625-638 | a point keeps the caller's zoom, is drawn as one marker, and lies at the middle of the canvas |
| StaticMap.PlacedTileUnderItsCoords | lib/staticmap.js:414-431 | a drawn tile covers the pixels of the coordinates that project into it |
| StaticMap.TilesSpanCanvas | lib/staticmap.js:368-403 | the requested tiles cover the canvas on both axes: the first column and row start at or before the canvas edge, the last end at or past the opposite edge |
| StaticMap.CenterTileRequested | lib/staticmap.js:368-390 | away from zoom 0 the tile holding the centre is among the requested tiles |
| StaticMap.ZoomZeroWorldTile | lib/staticmap.js:388-390 | at zoom 0 with an in-range centre only the world tile (0, 0) is requested |
| StaticMap.ZoomZeroCenterTile | lib/staticmap.js:368-369 | at zoom 0 an in-range centre lies in tile (0, 0) |
| StaticMap.ZoomZeroAround | lib/staticmap.js:385-390 | at zoom 0 the square around tile (0, 0) requests that tile alone |
| StaticMap.GenerateStaticMap | lib/staticmap.js:29-44 | there is a world view iff the flag is set, and the main map has the recomputed zoom |
| StaticMap.BothViewsSameShapes | lib/staticmap.js:29-44 | with the flag set, the world view is drawn iff its tile loaded (else the error view), and both views draw the same shapes |
| Preview.ExpandPropertyValue | lib/preview.js:8-48 | the `continue` loop computes `Expand`: "@id" and "@value" come back unchanged, anything else as the records of the kept values |
| Preview.ExpandSelects | lib/preview.js:14-46 | the records are an order-preserving selection: record j classifies the j-th kept value, and a value is kept iff it is not the metadata reference and its record is not empty |
| Preview.ExpandDropsMetadata | lib/preview.js:23-26 | no record comes from a reference to `ro-crate-metadata.json` |
| Preview.ExpandRecordsOneKind | lib/preview.js:15-45 | every kept record is non-empty and exactly one of entity link (with a name), external URL or value, and `local_url` stays empty |
| Preview.ClassifyReference | lib/preview.js:23-39 | a crate entity becomes `target_id` with the joined names or the id; else a URL becomes `url`; else the reference is the value |
| Preview.ClassifyLiteral | lib/preview.js:40-43 | a literal becomes the record's value, and is kept iff it is truthy |
| Preview.Join | lib/preview.js:30 | joining one name returns it, and a join with a non-empty separator is empty iff there is no name or one empty name |
| Preview.TargetName | lib/preview.js:30 | the target name is the joined names when they join to a non-empty string, and the id otherwise; it is non-empty for a non-empty id |
| Preview.ResolveUri | lib/preview.js:51 | `uri` is `resolveTerm(prop)` when that resolves, else `prop`, and it is non-empty for a non-empty prop |
| Preview.PropUrl | lib/preview.js:60-66 | the url is `null` iff `uri == prop`, else `"#" + uri` exactly when `uri` is an entity, else `uri` |
| Preview.InitEntry | lib/preview.js:52-66 | an existing entry keeps `fwd`, `rev` and `label`; a new one is `{fwd: [], rev: [], label: prop}`; the url is always re-set |
| Preview.InitializeProp | lib/preview.js:50-68 | returns the resolved URI and changes only that URI's entry, to `InitEntry` of what was there |
| Preview.EntityLite.constructor | lib/preview.js:116 | a fresh entity object has the entity's id and types, and no properties |
| Preview.EntityLite.SetFwd | lib/preview.js:132 | assigning `fwd` replaces only that field of that entry |
| Preview.EntityLite.SetRev | lib/preview.js:139-143 | assigning `rev` replaces only that field of that entry |
| Preview.AddForward | lib/preview.js:126-133 | the loop over the entity's keys computes `FwdFold`, skipping "@id" and "@type" |
| Preview.AddReverse | lib/preview.js:136-145 | the loop over the "@reverse" keys computes `RevFold` |
| Preview.BuildEntity | lib/preview.js:114-145 | an entity's preview object is its id, its types and `EntityProps`; the reverse pass runs only when "@reverse" exists |
| Preview.FwdFoldKeys | lib/preview.js:126-133 | the forward pass has an entry for exactly the resolved URIs of the forward keys, and leaves other entries alone |
| Preview.FwdFoldLast | lib/preview.js:131-132 | the `fwd` of a URI is the expansion of the last key resolving to it, and its `rev` is empty |
| Preview.FwdRevEmpty | lib/preview.js:126-133 | after the forward pass every `rev` is empty |
| Preview.FwdFoldLabel | lib/preview.js:52-57 | an entry's label is the first key that resolved to its URI |
| Preview.RevFoldKeepsFwd | lib/preview.js:136-145 | the reverse pass keeps every entry and every `fwd` |
| Preview.RevFoldLast | lib/preview.js:138-143 | the `rev` of a URI is the expansion of the last reverse key resolving to it |
| Preview.EntityForwardValue | lib/preview.js:126-145 | in the finished entity, a forward key's URI maps to the expansion of that key's values |
| Preview.EntityReverseValue | lib/preview.js:136-145 | in the finished entity, a reverse key's URI has the expansion of that key's values as `rev` |
| Preview.NoReverseNoRev | lib/preview.js:136 | without "@reverse" every entry's `rev` stays empty |
| Preview.QuadTreeId | lib/preview.js:70-82 | the path is 46 characters: four 8-character slices separated by '/', then "/index.html", and the slices concatenate back to the digest |
| Preview.QuadTreeIdInjective | lib/preview.js:70-82 | two ids share a path iff their digests are equal |
| Preview.FirstConfigured | lib/preview.js:101-108 | the first position in `@type` whose type is configured, or none when no type is |
| Preview.BuildPages | lib/preview.js:94-111 | the page pass, inner loop with `break` included, computes `PagesOf` |
| Preview.PagesKeys | lib/preview.js:100-110 | an id has a page iff it had one before or some entity with that id has a configured type |
| Preview.PagesLast | lib/preview.js:100-110 | an id keeps its earlier page unless an entity with that id has a configured type; otherwise it gets the page of the last such entity |
| Preview.NoConfigNoPages | lib/preview.js:94 | without a configuration `pages` is empty |
| Preview.RootPage | lib/preview.js:96-99 | the root maps to "ro-crate-preview.html" with the root template, unless the root entity has a configured type |
| Preview.ConfiguredEntityPage | lib/preview.js:100-110 | with one entity per id, an entity with a configured type maps to "ro-crate-preview_html/" + quadTreeId(id) with its first configured type's template, and other non-root entities get no page |
| Preview.TypeUrl | lib/preview.js:121 | `typeUrls[t]` is the resolved term, or "type" when it does not resolve, and is never empty |
| Preview.IndexTypes | lib/preview.js:118-124 | the type loop of one entity computes `AddTypes` |
| Preview.Matching | lib/preview.js:118-124 | the ids one entity contributes to `types[t]` are its id, present iff `t` is among its types |
| Preview.IdsOfType | lib/preview.js:118-124 | reference definition: an id appears in the list for `t` iff some entity with that id has type `t` |
| Preview.MatchingEmpty | lib/preview.js:118-124 | an entity contributes nothing to `types[t]` iff `t` is not among its types |
| Preview.AddTypesFacts | lib/preview.js:118-124 | one entity's type loop appends its id to each of its types' lists (once per listing), creates the lists and URLs of new types, and keeps keys and URLs in step |
| Preview.IdsOfTypeLast | lib/preview.js:118-124 | the reference list grows entity by entity |
| Preview.TypesIndexed | lib/preview.js:114-124 | `types` has a key for exactly the types that occur, `types[t]` lists the ids of entities of type `t` in entity order, and `typeUrls` has the same keys, each set once to `TypeUrl` |
| Preview.IdsKeys | lib/preview.js:114-147 | `ids` has a key for exactly the entity ids |
| Preview.IdsLast | lib/preview.js:114-147 | an entity is stored under its id as built, unless a later entity has the same id |
| Preview.RoCrateToJSON | lib/preview.js:84-150 | `roCrateToJSON` returns `CrateToJson`: the root id as entry point, and the pages, ids, types and type URLs of the two passes |
| Preview.EntryPointIndexed | lib/preview.js:86-147 | the entry point is the root dataset id, and it is a key of `ids` whenever the root is among the entities |
| Preview.EntityIndexed | lib/preview.js:114-147 | with one entity per id, `ids[e.id]` holds e's id, type list and property entries |

## Left out

- Network and concurrency are not modelled. This covers tile fetching with `axios`, `Promise.all` and the per-tile `catch`. Which tiles loaded is the parameter `fetched`, and whether the world tile loaded is `worldTile`.
- Canvas work is not modelled: background fills, image drawing, path stroking and filling, styles, captions and `toDataURL`. The model keeps the ordered list of shapes and tile placements that would be drawn.
- The Mercator latitude term (`log`/`tan`/`cos`) is not modelled. It is a parameter `merc: real -> real` standing for the normalised y fraction.
- Floating-point rounding is not modelled. All arithmetic is exact on reals.
- WKT parsing is not modelled. The model starts from the parsed geometry.
- The world view's centroid is not modelled, because the code computes it but never reads it.
- Preview.EntityLite: keys are ordinary strings, so prototype keys such as `constructor` or `__proto__` are not modelled. In JavaScript their lookups on a plain object would read inherited values.
- Preview.IndexTypes, Preview.RoCrateToJSON: `types`, `typeUrls`, `pages` and `ids` are plain objects too, and the model treats every key as absent until set. With a type named `constructor`, `!crateLite.types[type]` is false on the inherited function and the following `push` throws; the model instead starts a new list.
- Preview.BuildEntity: the "@reverse" key is taken not to be among the entity's own keys. Its contents arrive separately as `Entity.reverse`.
- `renderTemplate` is not modelled: nunjucks, file system and markdown are outside this model.
- MD5 itself is the parameter `md5`; the RO-Crate library is the `getEntity`/`resolveTerm` fields.
- The CLI (`index.js`), the dev server (`dev.js`), the build script and the test drivers are not part of this model.
- Zoom.MapZoom: the zoom is a `nat`, so a fractional caller zoom is not modelled. Width and height are positive (`Geometry.Dim`) and the tile size must be positive. On a zero-width or zero-height canvas with a zero span the code computes `0 / 0 = NaN`, its zoom is NaN and no tile is requested; that case is not modelled.
- Geometry.WellFormed: an empty line, a polygon without rings and a polygon with an empty ring are excluded by precondition. On an empty vertex list the code's bounds are ±Infinity and its centre is NaN; for an empty line it then throws a TypeError reading the first vertex. A polygon without rings gets zoom 0, requests no tile, draws nothing and still returns an image.
- StaticMap.GenerateStaticMap: the JavaScript default arguments (300 × 300, zoom 12, tile size 256, world view on; `generateMap`'s own default zoom 10) are not modelled. Every argument is passed explicitly.
- WorldView.FitWorld: the world tile image is required to have positive dimensions. A decoded PNG always has.
- Dateline.SplitRing: a crossing edge whose endpoints are not one positive and one negative longitude inserts nothing. This can only happen with out-of-range longitudes. Safety is proved only for longitudes in [−180, 180].

## Findings

| source | as written | input that shows it | evidently intended | confidence | as-written member | corrected member |
|---|---|---|---|---|---|---|
| lib/staticmap.js:479-480 (and its copies at lib/staticmap.js:152-153, 240-241, 567-568) | `ratio = (180 − \|lon_a\|) / \|lon_a − lon_b\|` divides by the unwrapped longitude difference | a = (170, 0), b = (−170, 10): ratio = 10/340, latitude 5/17 ≈ 0.29 | divide by the wrapped span 360 − \|lon_a − lon_b\| (= 20 here), giving latitude 5, where the segment meets ±180 | not executed | Dateline.LatAsWrittenMisplaced (with Dateline.RatioAsWritten, Dateline.LatAsWritten) | Dateline.FractionReachesDateline, Dateline.LatAtDateline, Dateline.LatAtDatelineBetween |
