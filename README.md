# Trench drawing backend: a verified model

The repository is a backend that turns a list of construction elements into a
CAD drawing (a DXF file) and a bill of quantities, the *Aufmaß*. The elements
are trenches (*Baugraben*), pipes (*Rohr*), surface pavings
(*Oberflächenbefestigung*) with border zones, passages under the surface
between two trenches (*Durchstich*) and plain connections (*Verbindung*). The
backend also serves a catalog of tender items (*LV*, Leistungsverzeichnis)
that Aufmaß lines can be matched against.

This project models the core of that backend and proves properties of the
model:

- **Normalizer** (`normalize.dfy`, `normalize_facts.dfy`). `_normalize_and_reindex`
  renumbers trenches 1..N and re-points pipes and surfaces at them. It checks
  passages and connections against the seams 1..N-1, expands connection groups
  and numbers passages that have no seam. It renumbers surface `seq` values.
  It drops duplicate seams from the back. The passes are methods over the
  element list, each proved against a function; the lemmas state what the
  normalized list looks like.
- **Lookups and editing helpers** (`lookups.dfy`, `units.dfy`). These are the
  surface, pipe and passage lookups and the resolution of an edit selection
  to an index. Also here: text normalization, the type aliases, the unit
  parser `_num_to_meters`, the coercion of an update (the second definition,
  which is the one in effect), `_apply_update`, and the trench reference in
  an instruction.
- **Aufmaß composer** (`aufmass.dfy`, `aufmass_lines.dfy`). This covers the
  line order, the segment lines of a surface, and the manual override kept
  in the element list (the `Aufmass.Session` class). It also covers the final
  merge of manual and generated lines, plus the proof that the sort key reads
  every generated line as the category and number it was written for.
- **Generator loop** (`gen_basics.dfy`, `gen_parts.dfy`, `gen_cluster.dfy`,
  `gen_merge.dfy`, `generator.dfy`). This is `_generate_dxf_intern` at the
  level of its bookkeeping.
  - Each pass of the `while` loop either draws one trench alone or merges a
    pair over a connection or passage.
  - The drawing calls become a log of events. The Aufmaß lines become records
    that are rendered at the end.
  - The `drawn_*` and `printed_*` sets, the cursor, `trench_origin_x` and
    `skip_single_next` are the fields of the loop state.
  - The loop invariant shows that a successful run made one plan view and one
    trench line per trench, and one passage line per seam that carries a
    passage.
- **Geometry primitives** (`sink.dfy`, `trench.dfy`, `surface.dfy`).
  - The drawing (`msp`) is the class `Sink.Drawing`. It holds an append-only
    sequence of entities: polylines, linear dimensions and hatches.
  - `draw_trench_front`, `draw_trench_top`, `draw_trench_front_lr`,
    `draw_surface_top` and `draw_surface_top_segments` are methods that
    append to it. Each is proved against a function of its arguments.
- **LV catalog** (`lv_loader.dfy`, `lv_routes.dfy`, `lv_matcher.dfy`). This covers
  item normalization, the file labels, the list of configured files, loading,
  sorting and searching. It also covers the three response formats of the
  `/lv` route, the pre-filter of the matcher and its Aufmaß splitter.

Shared pieces:

- `wrappers.dfy`: `Option`/`Result`.
- `numbers.dfy`: `min`, `max`, `abs`.
- `text.dfy`: `str.lower`, `strip`, `in` on strings, `splitlines`, `str(int)`.
- `order.dfy`: Python's stable `sorted` with tuple keys, list comprehensions
  and counting.
- `elements.dfy`: the element record and the substring-on-lower-cased-type
  classification.
- `json.dfy`: a key of a JSON object that is missing, `null` or a scalar.

Python's `sorted` is modelled once, as `Order.SortBy`. It is a stable sort by
a key of type `seq<int>`, compared lexicographically. Tuple keys become
concatenations of components. `Order.Str` encodes a string component as its
code points shifted by one, followed by a 0, so that a prefix sorts first and
tuples compare component by component. Python's text form of a float is a
parameter `fmt: real -> string` wherever text is produced from a number.

## Model

| member | source | states |
|---|---|---|
| Elements.OverrideIsNoTrench | main.py:367-384 | an `aufmass_override` record is classified as no element kind at all |
| Units.NormText | main.py:429-430 | the normalized text holds no umlaut, no ß and no ASCII capital |
| Units.ExpandUmlauts | main.py:429-430 | spelling out leaves no umlaut or ß in the text |
| Units.TypeAlias | main.py:393-408 | every alias maps to one of the canonical type names |
| Units.NormalizeTypeAliasRange | main.py:432-439 | `_normalize_type_aliases` yields a canonical type or returns its input unchanged |
| Units.PlainNormText | main.py:429-430 | text of ASCII letters normalizes to its lower-case form |
| Units.ParseNum | main.py:441-465 | the value read is never negative, and a plain digit string reads as the number it writes |
| Units.MatchPlain | main.py:453-460 | a full match of a signed number with an optional unit never gives a negative value, because the sign is not part of the group; the unit factors are stated by the NumToMeters lemmas below |
| Units.NumToMeters | main.py:441-465 | integers and floats are taken as they are, booleans as 1 or 0, and text never reads as a negative length |
| Units.NumToMetersDropsSign | main.py:452-455 | text never yields a negative length: "-12" reads as 12 metres |
| Units.NumToMetersBare | main.py:453-459 | the text of a natural number n reads as n metres |
| Units.NumToMetersMetres | main.py:453-459 | "n" followed by "m" reads as n metres |
| Units.NumToMetersCentimetres | main.py:453-458 | "n" followed by "cm" reads as n/100 metres |
| Units.NumToMetersMillimetres | main.py:453-457 | "n" followed by "mm" reads as n/1000 metres |
| Units.NumToMetersDn | main.py:447-450 | "dn" followed by n reads as n/1000 metres, a nominal diameter in millimetres |
| Units.NumToMetersComma | main.py:444-445 | digits, a decimal comma and digits read exactly as the same text with a decimal point |
| Units.NumToMetersMmFallback | main.py:461-464 | lower-case letters, then n, then "mm" match neither the dn nor the plain pattern; the search finds n and reads it as n/1000 metres |
| Units.CoercedEntry | main.py:581-591 | one request entry contributes its aliased field with `str(v)` for text fields and the parsed metres for numeric ones, or nothing; the value may be a JSON `null` |
| Units.CoercedNull | main.py:581-591 | a `null` for a numeric field is skipped; a `null` for a text field is stored as "None" |
| Units.NullNoLength | main.py:441-465 | `_num_to_meters(None)` is None: "None" normalises to "none", which no pattern reads |
| Units.CoerceKinds | main.py:581-591 | in the coerced update numeric fields hold metres and text fields hold text |
| Units.CoerceCovers | main.py:581-591 | every entry that yields a value puts its field into the update |
| Units.CoerceOnlyFrom | main.py:581-591 | a field is present only when some entry names it and yields a value |
| Units.CoerceLastWins | main.py:581-591 | the last entry that yields a value for a field decides it |
| Units.UmlautAliasesUnreachable | main.py:410-427 | the alias keys spelled with umlauts are never looked up, since `_norm_text` has already spelled them out |
| Units.ApplyUpdate | main.py:299-302 | every allowed field in the update is overwritten and nothing else changes |
| Units.CoercedApplies | main.py:420 | a coerced update lands in full: `_apply_update` writes every value it carries |
| Units.ApplyWellKinded | main.py:299-302 | an update whose fields hold values of their kind is written in full |
| Units.ExplicitTrench | main.py:2043-2045 | the number of the leftmost position where the pattern matches, which is at least 1; None exactly when no position matches |
| Units.ExplicitTrenchBg | main.py:2041-2045 | "BG n" at the start of the text names trench n |
| Lookups.SurfacesForTrench | main.py:79-84 | a permutation of the surfaces that belong to the trench |
| Lookups.SortedBySeq | main.py:83 | sorting by `seq` (missing as 1) gives ascending `seq`, and surfaces with equal `seq` keep their list order |
| Lookups.SurfacesForTrenchSorted | main.py:79-84 | every surface of the trench exactly once; when one has a `seq`, ascending `seq` with surfaces of equal `seq` in their list order (the sort is stable); list order otherwise |
| Lookups.PipesForTrench | main.py:211-212 | an element is in the result exactly when it is a pipe of the list on that trench |
| Lookups.FirstPipeForTrench | main.py:214-216 | a pipe of the list on that trench, or None |
| Lookups.FirstPipeIsFirst | main.py:214-216 | the pipe found is the first of the trench, and there is none exactly when no pipe points at it |
| Lookups.PassForBetween | main.py:218-227 | a passage of the list, or None |
| Lookups.PassForBetweenPrefersSeam | main.py:218-224 | when a passage has `between`, the one found is the first on seam idx, and one is found whenever one sits there |
| Lookups.PassForBetweenLegacy | main.py:225-227 | only when no passage has `between` does the list position decide |
| Lookups.FindTargetIndex | main.py:232-295 | an index within the element list, or None |
| Lookups.FindSurfaceFirst | main.py:232-295 | without `seq` the surface found has the smallest `seq` of its trench (missing counts as 10**9), the earliest of equals |
| Lookups.FindSurfaceBySeq | main.py:232-295 | with `seq` the surface found is the first of its trench with that `seq`, none exactly when no surface has it |
| Lookups.FindPassageChoice | main.py:232-295 | a passage on the selected seam, else the `ordinal`-th, else the first; none only when there is no passage |
| Lookups.FindTargetMatches | main.py:232-295 | types are checked in the order trench, pipe, surface, passage, connection; a trench selection finds the first trench with its number and a pipe selection the first pipe on its trench; surface, passage and connection selections return what FindSurface, FindPassage and FindConnection choose, an element of that class; other types find nothing |
| Lookups.FindConnectionChoice | main.py:284-293 | the first connection on seam `between` when there is one, else the first connection; none exactly when the list has no connection |
| Lookups.ResolveSelection | main.py:498-546 | an index within the element list, or None |
| Lookups.ResolveSelectionLast | main.py:524-546 | the element resolved is the last that matches, or when none does the last of its type; nothing only when neither exists |
| Lookups.ResolveConnectionIsSurface | main.py:502-546 | a connection selection never matches; it resolves to the last surface |
| Normalize.IdxMap | main.py:91-97 | every new number the map holds lies in 1..N |
| Normalize.ReindexTrenches | main.py:91-97 | the method numbers the trenches 1..N in list order and builds the same map |
| Normalize.GokOf | main.py:107-112 | a missing or empty ground level is 0; otherwise the parsed value, 0 when it does not parse |
| Normalize.CollectElements | main.py:103-160 | the pass over the elements fills `keep` and `pass_buffer` exactly as the functions for the kept elements and the buffered passages say |
| Elements.Trunc | main.py:147 | `int()` of a float rounds toward zero: at most the value and within 1 of it when it is not negative, at least the value and within 1 of it when it is negative |
| Elements.IntOf | main.py:147 | `int()` of a group member: an integer is itself, `true`/`false` are 1/0, a float is truncated, text is read as `int` reads it, and `null` raises |
| Normalize.GroupInts | main.py:146-149 | the comprehension succeeds exactly when every member converts, and then holds each member's `int` in order |
| Normalize.GroupRaisesEmpty | main.py:146-149 | one member on which `int` raises (a `null`, text that is no integer) empties the whole group |
| Normalize.GroupOfInts | main.py:147-150 | a group of JSON integers reads as its positive members that lie in 1..N, in order |
| Normalize.GroupInRange | main.py:147-150 | a group whose every member converts to a number in 1..N names exactly those numbers, in order |
| Normalize.IntOfConverts | main.py:147 | `int` reads the text "2" as 2, the float 3.7 as 3 and `true` as 1 |
| Normalize.GroupConverts | main.py:146-150 | the group ["2", 3.7, true] with N = 3 names trenches 2, 3 and 1 |
| Normalize.AppendPairJoins | main.py:144-157 | appends one connection for each neighbouring pair of the group that differ by one, on the lower seam when it lies in 1..N-1 |
| Normalize.PassNumbered | main.py:162-167 | as many passages are numbered as `min(len(buffer), max(0, N-1))` |
| Normalize.AppendBuffered | main.py:162-167 | the loop appends exactly the numbered passages |
| Normalize.CollectBuckets | main.py:170-174 | the buckets hold the surfaces' positions, their keys are distinct and exactly the buckets, and every surface is in a bucket |
| Normalize.NumberBucket | main.py:175-178 | numbering one more bucket keeps the invariant of the partly renumbered list, with that bucket done |
| Normalize.RenumberSurfaces | main.py:169-178 | every bucket is numbered; only surfaces' `seq` changes and nothing moves |
| Normalize.DropDuplicateSeams | main.py:180-207 | the deletion loop from the back equals the deduplication function on the list |
| Normalize.NormalizeElements | main.py:86-209 | the passes run in the source's order and give the normalized list |
| NormalizeFacts.DedupSubset | main.py:180-207 | everything the deletion pass keeps was in its input |
| NormalizeFacts.DedupValid | main.py:185-193 | a kept passage or connection sits on a seam 1..N-1 that is not blocked and not taken further back |
| NormalizeFacts.DedupUnique | main.py:180-207 | no two kept elements of the kind share a seam |
| NormalizeFacts.DedupKeepsLast | main.py:183-193 | of the elements on a valid free seam, the last is kept |
| NormalizeFacts.DedupKeepsOthers | main.py:180-207 | elements of other kinds pass through in order |
| NormalizeFacts.DedupKeepsDistinct | main.py:195-207 | the connection pass keeps the passage seams distinct |
| NormalizeFacts.SurfaceSeqRange | main.py:169-178 | renumbering changes only `seq` of surfaces, to 1..k for a bucket of k |
| NormalizeFacts.SurfaceSeqOrder | main.py:176 | within a bucket the new numbers follow the old `seq` (missing counts as 10**9), ties by list order |
| NormalizeFacts.SurfaceSeqCovers | main.py:177-178 | every number 1..k goes to some surface of the bucket |
| NormalizeFacts.IdxMapLast | main.py:94-96 | the last trench with a given old number decides where the map sends it |
| NormalizeFacts.IdxMapFrom | main.py:92-95 | the map has a key only for an old number some trench had |
| NormalizeFacts.PairJoinsConnections | main.py:150-157 | the connections a group expands to sit on seams 1..N-1 |
| NormalizeFacts.NormalizedShape | main.py:86-209 | trenches are numbered 1..N and nothing else carries a trench number; pipes and surfaces point at 1..N; passages and connections sit on 1..N-1 |
| NormalizeFacts.NormalizedSeams | main.py:180-207 | at most one passage and one connection per seam, and no connection on a seam with a passage |
| NormalizeFacts.KeptTrenches | main.py:103-112 | the trenches `keep` collects are numbered 1, 2, … in order, one per trench |
| NormalizeFacts.TrenchesInOrder | main.py:86-209 | when no trench's type also names another kind, the trenches of the result are all the trenches, numbered 1..N in list order |
| Aufmass.SortAufmassLines | main.py:304-333 | a permutation of the lines, ordered by category (Baugraben 0, Rohr 1, Durchstich 2, Oberfläche 3, other 9), number and sub-number |
| Aufmass.SortAufmassStable | main.py:309-333 | lines with equal keys keep their input order |
| Aufmass.SurfaceClass | main.py:325-328 | "Oberfläche n.k" is read as category 3, number n, sub-number k |
| Aufmass.RowTextClass | main.py:335-365 | a segment line sorts as the surface line of its trench and segment number |
| Aufmass.Remaining | main.py:347-365 | `remaining` is never negative after the first segment |
| Aufmass.Consumed | main.py:349-353 | the length a segment takes is never negative |
| Aufmass.RowOf | main.py:355-364 | the row of segment k is numbered k+1, carries its own offset and material, and is `width + 2·offset` wide |
| Aufmass.AppendSurfaceSegments | main.py:335-365 | one line per segment is appended and the earlier lines are untouched |
| Aufmass.SegmentsCoverTrench | main.py:346-365 | for a trench length >= 0 the segments share out exactly that length |
| Aufmass.ReportedSoFar | main.py:355-357 | reported lengths add up to the consumed lengths plus the free outer border zones |
| Aufmass.ReportedLength | main.py:335-365 | with both ends free the reported lengths add up to the trench length plus the two outer border zones |
| Aufmass.TrimLines | main.py:373 | one entry per non-blank input line, in order, each that line stripped; so every entry is non-empty and already stripped, and the strip of every non-blank line is among them |
| Aufmass.TrimLinesIdempotent | main.py:373 | trimming twice is trimming once |
| Aufmass.ManualLines | main.py:367-375 | the trimmed lines of the last override that has a list of lines, or None |
| Aufmass.SetLeavesOneOverride | main.py:377-384 | after setting, exactly one override is left, as the last element |
| Aufmass.SetKeepsOthers | main.py:380 | setting keeps every other element, in order |
| Aufmass.SetThenGet | main.py:367-384 | reading the lines back after setting them gives the trimmed lines |
| Aufmass.Session.SetManualAufmassLines | main.py:377-384 | the method rewrites the element list in place to the set list |
| Aufmass.MergeAufmass | main.py:2011-2020 | the manual lines first, then the sorted lines that are neither blank nor manual; without manual lines, the sorted lines |
| Aufmass.MergeExtras | main.py:2016-2017 | after the manual lines come only sorted lines that are neither blank nor manual |
| Aufmass.MergeKeepsGenerated | main.py:2011-2020 | no sorted line with text is lost by the merge |
| Aufmass.FinalAufmass | main.py:2011-2020 | without manual lines the text is the collected lines, sorted |
| Aufmass.SetLinesHeadFinal | main.py:2013-2020 | once non-blank manual lines are set, they head the final Aufmaß in the given order |
| AufmassLines.RenderClass | main.py:1074-1087 | the sort key reads every generated line as the category and number it was written for |
| AufmassLines.RenderCount | main.py:1074-1087 | as many rendered lines fall in a category and number as records were written for it |
| AufmassLines.SortedCount | main.py:2011 | sorting the rendered lines keeps those counts |
| AufmassLines.KeywordNumber | main.py:312-322 | a keyword in any capitals, a space and a number, then a non-digit, reads as that number |
| Sink.Drawing.constructor | main.py:976-977 | a new drawing holds no entities |
| Sink.Drawing.Add | main.py:976-977 | adding appends one entity and keeps the others |
| Sink.Drawing.AddAll | main.py:976-977 | adding several appends them in order |
| TrenchGeom.LevelsOf | app/cad/trench.py:41-55 | depths default to `depth`; the ceiling is the greatest of the three depths above the inner bottom; each floor is its depth below the ceiling, the outer floor `clearance_bottom` lower |
| TrenchGeom.FloorsAboveBottom | app/cad/trench.py:44-53 | no inner floor drops below the inner bottom, and the deeper side touches it |
| TrenchGeom.DrawTrenchFront | app/cad/trench.py:30-98 | appends exactly the entities of the elevation, in drawing order |
| TrenchGeom.FrontOutlines | app/cad/trench.py:57-69 | the outer outline spans `length + 2·clearance_left` and rises to the ceiling; the inner starts `clearance_left` in, is `length` long, and has its top 1e-6 below the ceiling |
| TrenchGeom.InnerInsideOuter | app/cad/trench.py:60-68 | for a length and a left clearance >= 0, the inner outline lies within the outer one's horizontal extent, centred in it |
| TrenchGeom.FrontDimensions | app/cad/trench.py:57-91 | the left depth dimension is always drawn; the right one only when the depths differ by at least 1e-6; each measures its side's depth |
| TrenchGeom.FrontHatch | app/cad/trench.py:93-98 | the hatch fills the band between the two outlines |
| TrenchGeom.DrawTrenchTop | app/cad/trench.py:100-126 | appends exactly the entities of the plan view |
| TrenchGeom.TopEdges | app/cad/trench.py:104-109 | both long edges always, `4 +` the unclipped short edges entities in all, and every line point on the rectangle's boundary |
| TrenchGeom.TopClipping | app/cad/trench.py:106-109 | for a non-zero length, the left and right short edges are drawn exactly when not clipped |
| TrenchGeom.TopDimensions | app/cad/trench.py:112-126 | exactly two dimensions: the length above the far edge, the width on the right edge with `dim_right`, on the left otherwise |
| TrenchGeom.HLine | app/cad/trench.py:153-155 | a horizontal line only when longer than 1e-9 |
| TrenchGeom.FloorAtEnds | app/cad/trench.py:161-165 | the floor runs through the left floor at the inner left edge and the right floor at the inner right edge |
| TrenchGeom.DrawTrenchFrontLR | app/cad/trench.py:128-257 | appends exactly the entities of the partial elevation |
| TrenchGeom.LRNoClearance | app/cad/trench.py:167-181 | without clearance on either side only the optional outer outline is drawn |
| TrenchGeom.LRVerticals | app/cad/trench.py:195-202 | with a clearance, each inner vertical is drawn when its flag asks for it, at its edge from its floor to the ceiling |
| TrenchGeom.LRTopGap | app/cad/trench.py:204-218 | with a top gap the ceiling splits into pieces ending before the gap and starting after it; pieces of at most 1e-9 are skipped |
| TrenchGeom.LRBottomOnlyWhenAsked | app/cad/trench.py:234-257 | without `draw_bottom` every entity drawn is vertical, lies on the ceiling level, or is closed: no floor line |
| SurfaceGeom.DrawSurfaceTop | app/cad/surface.py:42-81 | appends exactly the entities of the border-zone rectangle |
| SurfaceGeom.ZoneExtent | app/cad/surface.py:53-64 | the outline spans x from `tlx−offset` (or `tlx` when clipped) to `tlx+L+offset` (or `tlx+L`), y from `tly−offset` to `tly+W+offset` |
| SurfaceGeom.ZoneDimensions | app/cad/surface.py:66-81 | the vertical dimension only for an offset above 1e-6 at a free left end; the length dimension spans the clipped extent |
| SurfaceGeom.Clamp | app/cad/surface.py:104-114 | offsets and lengths are clamped to >= 0, a missing length is 0 |
| SurfaceGeom.Adjusted | app/cad/surface.py:116-124 | only the last segment can change |
| SurfaceGeom.NormalizeSegments | app/cad/surface.py:103-124 | the normalizing loop equals the normalization function |
| SurfaceGeom.Boundaries | app/cad/surface.py:126-131 | the boundary loop gives the running sums |
| SurfaceGeom.SegmentDims | app/cad/surface.py:166-205 | the dimension loops give a length dimension per segment, then a width dimension per segment with a border zone |
| SurfaceGeom.DrawSurfaceTopSegments | app/cad/surface.py:84-205 | appends exactly the outline and, with `add_dims`, the dimensions |
| SurfaceGeom.NoSegmentsNothing | app/cad/surface.py:96-97 | an empty segment list draws nothing |
| SurfaceGeom.NormalizedClamps | app/cad/surface.py:104-124 | normalization keeps materials, clamped offsets and all lengths but the last; nothing is negative |
| SurfaceGeom.NormalizedLength | app/cad/surface.py:116-124 | after a shortfall the lengths sum to L; after an overflow the last is reduced but not below 0 |
| SurfaceGeom.BoundariesGrow | app/cad/surface.py:126-131 | `boundaries` starts at 0, has n+1 entries, never decreases and ends at the total |
| SurfaceGeom.OutlineSteps | app/cad/surface.py:133-161 | the outline has 4·n points; each inner boundary gives a vertical step at `tlx+boundaries[j]` on both long sides |
| SurfaceGeom.SegmentDimensions | app/cad/surface.py:163-205 | without `add_dims` only the outline; otherwise one length dimension per segment in order, then one width dimension per segment whose offset exceeds 1e-6 |
| SurfaceGeom.LengthDimSpan | app/cad/surface.py:171-185 | a segment's length dimension spans its boundaries, extended by its offset only at an unclipped outer end |
| SurfaceGeom.WidthDimsShape | app/cad/surface.py:187-205 | every width dimension is vertical and measures `W + 2·offset` |
| GenBasics.Sorted | main.py:989-996 | an element is in a list exactly when it is an input element and the first of baugraben, rohr, oberflächenbefest, durchstich, verbindung its type contains names that list |
| GenBasics.JoinSet | main.py:998 | the seams named by connections that have a `between` |
| GenBasics.DepthsOf | main.py:1068-1072 | end depths default to `depth` (0 when missing); the reference is the greatest of the three |
| GenBasics.PipeFullAndWant | main.py:1094-1099 | a pipe is full-span when it says so or has no positive length; otherwise it wants its length |
| GenBasics.MakeCtx | main.py:989-1002 | the context of a non-empty trench list holds its trenches; MAX_DEPTH is the greatest reference depth; the plan level lies above every ceiling raised by its ground level |
| GenBasics.Base | main.py:1229-1236 | the inner bottom of a trench lies as far above the common bottom as it is shallower than the deepest, raised by its ground level |
| GenBasics.LinkKinds | main.py:1090-1092 | on a linked seam, connection-only holds exactly when no passage is found |
| GenBasics.WellFormedNoError | main.py:1239-2007 | a well-formed input has none of the defects an error reports |
| GenBasics.FrontCeiling | main.py:1265-1278 | an elevation placed by FrontOrigin has its ceiling at `CLR_BOT + MAX_DEPTH + gok` |
| GenParts.PlanView | main.py:1280-1287 | the plan view of a trench is drawn only when it is not drawn yet, which adds it to `drawn_top` |
| GenParts.TrenchTally | main.py:1074-1087 | the trench line is written once, with the trench's own measures and ground level; an unreadable ground level of a trench not yet written fails |
| GenParts.PassTally | main.py:1994-1997 | the passage line of a merged seam that carries one, once; none for a connection-only seam |
| GenParts.PipePart | main.py:1289-1308 | a pipe is drawn when the trench's first pipe has a positive diameter and none is drawn yet; a line only for positive effective length |
| GenParts.SegmentLinesText | main.py:1316-1327 | written out, the segment lines are the lines `_append_surface_segments_aufmass` appends |
| GenParts.SurfacePart | main.py:1310-1345 | the surfaces are drawn once: segments with one line each when some has a length, else the border-zone rectangle with one line when the offset is non-zero |
| GenCluster.ClusterEnd | main.py:1852-1868 | the cluster ends at or after its start, on a trench that does not merge onward |
| GenCluster.ChaseSpan | main.py:1852-1868 | the chase ends at the cluster's last trench with the sum of trench and passage lengths |
| GenCluster.ChaseFailure | main.py:1852-1868 | a failing chase names a trench or passage of the cluster that lacks its length |
| GenCluster.ChaseSucceeds | main.py:1852-1868 | the chase never fails when every trench and passage of the cluster has a length |
| GenCluster.FullPipeFirst | main.py:1870-1879 | the pipe chosen is the first full-span first pipe in the range; none exactly when no trench has one |
| GenCluster.PieceLevels | main.py:1886-1908 | a trench piece runs from its left floor to its right floor; a passage piece is level with the right floor on its left |
| GenCluster.ProfilePositive | main.py:1886-1908 | every piece of the profile is longer than 1e-9 |
| GenCluster.ProfileCoversSpan | main.py:1886-1908 | when every trench and passage piece is longer than 1e-9, the profile's total length is the span |
| GenMerge.MergeLayout | main.py:1371-1398 | margins only toward unlinked neighbours; the right trench starts at `xSeam + p_w`; each ceiling sits at the common level raised by its ground level |
| GenMerge.GokMark | main.py:1422-1431 | a ground-level dimension only for a level further than 1e-9 from 0 and not yet dimensioned |
| GenMerge.SeamMark | main.py:1432-1437 | at a connection-only seam, a line closes the step between plan views of different width |
| GenMerge.PairFronts | main.py:1513-1847 | both elevations with the layout's margins and inner walls only at unlinked ends, then the outer contour and the passage block |
| GenMerge.DepthMarks | main.py:1968-1988 | the depth dimensions of a trench, once: one at its outer end for level floors, one at each end for sloped ones; the outer one measures the outer end's depth at the outer x (first for the left trench, last for the right), the other the seam end's depth at the seam, each with its dimension line 0.7 outward |
| GenMerge.ClusterPart | main.py:1849-1926 | at the left end of a cluster the chase fails on a missing length, else the full-span pipe is drawn over the summed span |
| Generator.SoloFront | main.py:1265-1278 | a single trench's elevation has its ceiling at `CLR_BOT + MAX_DEPTH + gok`, starts at x and is as long as the trench |
| Generator.SoloStep | main.py:1259-1356 | the single-trench branch: plan view and trench line once, cursor `max(cursor, x+L+2·CLR_LR+GAP_BG)`, `i` one further; fails only on an unreadable ground level |
| Generator.SoloTop | main.py:1280-1287 | a single trench's plan view is unclipped and dimensioned on the right only for the last trench |
| Generator.SoloExtras | main.py:1289-1345 | the pipe and surfaces of a single trench add no plan view and no trench or passage line |
| Generator.PairTops | main.py:1400-1420 | both plan views once, each edge clipped exactly at a connection-only seam |
| Generator.PairMarks | main.py:1422-1511 | ground-level marks, the seam line and the surfaces add no plan view and no tally |
| Generator.PairElevations | main.py:1513-1966 | fails exactly when the cluster chase fails at a cluster's left end; otherwise adds no plan view |
| Generator.PairDepths | main.py:1968-1989 | both trenches are marked as dimensioned; the left trench's dimensions (none once printed, one when level, two when sloped) come first, at its outer end or the seam with lines 0.7 to the left, then the right trench's at the seam or its outer end with lines 0.7 to the right; each trench's outer dimension measures its outer depth |
| GenMerge.DepthCount | main.py:1968-1988 | no dimension for a trench already printed, otherwise one or two |
| Generator.PairPipes | main.py:1927-1966 | the single pipes of the pair draw no plan view and write no tally |
| Generator.PairTally | main.py:1991-1999 | both trench lines and the seam's passage line, failing exactly on an unreadable ground level not yet written |
| Generator.MergeStep | main.py:1358-2007 | a passage without a length fails first; errors name real defects; a well-formed input advances with the merge's sets |
| Generator.MergeBody | main.py:1367-2007 | after the passage width: origins of both trenches recorded, cursor grows, skip flag set, `i` one further |
| Generator.AdvanceTallied | main.py:1239-2007 | every pass keeps the counts of plan views and lines equal to the sets |
| Generator.SoloKeeps | main.py:1259-1356 | a single trench keeps the invariant shape of the sets |
| Generator.MergeKeeps | main.py:1358-2007 | a merged pair keeps the invariant shape of the sets |
| Generator.SkipKeeps | main.py:1260-1263 | skipping the right half of the last merge keeps the invariant |
| Generator.WellFormedChase | main.py:1852-1868 | a well-formed input has every length the chase needs |
| Generator.Finished | main.py:1239-2007 | at the end of the loop each trench has one plan view and one trench line, and each passage seam one passage line |
| Generator.Generate | main.py:974-2036 | no trench fails with "Kein Baugraben"; every error names a real defect; a well-formed input succeeds; a success is complete, and its text is the merged Aufmaß |
| Generator.GeneratedText | main.py:2011-2020 | without manual lines the text has one "Baugraben m" line per trench and one "Durchstich m" line per passage seam |
| LvLoader.ConfiguredFiles | app/services/lv_loader.py:8-16 | the non-empty comma-separated parts of the setting, or the three default catalogs |
| LvLoader.ConfiguredJoin | app/services/lv_loader.py:14-16 | a setting of non-empty comma-free names joined by commas configures exactly those names |
| LvLoader.SplitOnJoin | app/services/lv_loader.py:15 | splitting on a separator and joining again gives the text back |
| LvLoader.FileName | app/services/lv_loader.py:20 | the file name is what follows the last '/', and holds no '/' |
| LvLoader.LabelForFile | app/services/lv_loader.py:19-27 | by key words of the lower-cased name in order, one of the three labels, otherwise the stem |
| LvLoader.PipeWordCovered | app/services/lv_loader.py:25 | a name is a pipe-work name exactly when it contains "rohrleitung" |
| LvLoader.ItemCode | app/services/lv_loader.py:30-40 | T1, T2 and Pos are stripped text, and the code joins them with dots |
| LvLoader.FalsyPriceDropped | app/services/lv_loader.py:36-37 | a falsy price under both keys is stored as None |
| LvLoader.PrimaryKeysWin | app/services/lv_loader.py:35-37 | a truthy value under the primary key wins over the alternatives |
| LvLoader.CodeSplits | app/services/lv_loader.py:40 | the code splits back into T1, T2 and Pos at its first two dots when T1 and T2 hold no dot |
| LvLoader.NormalizeIdempotent | app/services/lv_loader.py:29-41 | a normalized item, stored and normalized again under the same catalog, is unchanged |
| Text.ParseIntOfNat | app/services/lv_loader.py:62 | `int(str(n)) == n` |
| LvLoader.LoadKeyLess | app/services/lv_loader.py:60-64 | keys order by catalog name, then by the three numbers |
| LvLoader.NumbersFirst | app/services/lv_loader.py:60-65 | within a catalog, an item with T1 a number below 10**9 sorts before one with no number |
| LvLoader.NormalizedCatalog | app/services/lv_loader.py:54-56 | every normalized item carries the catalog it was normalized under |
| LvLoader.GatheredCatalogs | app/services/lv_loader.py:46-58 | every gathered item comes from a file and carries that file's label |
| LvLoader.GatheredCount | app/services/lv_loader.py:55-56 | every array entry gives one item |
| LvLoader.AppendEntries | app/services/lv_loader.py:55-56 | the inner loop succeeds exactly when every entry is an object, and then appends the normalized entries |
| LvLoader.SortedLoad | app/services/lv_loader.py:65 | the sorted items are a permutation of the gathered ones, in key order |
| LvLoader.LoadLv | app/services/lv_loader.py:44-66 | fails exactly when some file does not load, naming the first; otherwise the gathered items sorted by the key with the stable sort, hence a permutation in key order |
| LvLoader.SearchLv | app/services/lv_loader.py:69-81 | the items passing every given filter, in order; text match ignores case on description or code |
| LvLoader.NarrowIsFilter | app/services/lv_loader.py:72-77 | the catalog, T1 and T2 filters in turn are one filter on their conjunction |
| LvLoader.SearchAll | app/services/lv_loader.py:69-81 | without filters the search returns every item |
| LvLoader.SearchIdempotent | app/services/lv_loader.py:69-81 | searching a search result with the same filters gives it back |
| LvRoutes.AsRow | app/routes/lv_routes.py:19-28 | the row's key and code are the item's code |
| LvRoutes.RowShowsItem | app/routes/lv_routes.py:19-28 | the item can be read back from its row |
| LvRoutes.ItemsOfRows | app/routes/lv_routes.py:19-28 | the rows show exactly the items they were made of, in order |
| LvRoutes.FlatRows | app/routes/lv_routes.py:39-40 | one row per item, in item order, keyed by the code |
| LvRoutes.Bucket | app/routes/lv_routes.py:44-46 | an item is in the bucket of k exactly when its key is k, in item order |
| LvRoutes.Firsts | app/routes/lv_routes.py:44-46 | the dictionary's keys: distinct, each the key of some item |
| LvRoutes.GroupBy | app/routes/lv_routes.py:44-46 | the bucket loop yields a map from each key seen to its bucket |
| LvRoutes.AppendCatalogTabs | app/routes/lv_routes.py:49-64 | one tab per catalog name in the given order, with the name's sorted bucket |
| LvRoutes.CatalogsFormat | app/routes/lv_routes.py:42-65 | the method builds the catalog tabs of the found items |
| LvRoutes.CatalogTabsHead | app/routes/lv_routes.py:42-56 | the three known catalogs come first, in fixed order, even when empty |
| LvRoutes.CatalogTabKeys | app/routes/lv_routes.py:53-61 | every tab's key is its title lower-cased |
| LvRoutes.OtherCatalogsFacts | app/routes/lv_routes.py:58 | the other catalogs are the items' catalogs outside the known three, each once, in ascending order |
| LvRoutes.CatalogTitlesDistinct | app/routes/lv_routes.py:43-64 | no two tabs have the same catalog |
| LvRoutes.CatalogTabRows | app/routes/lv_routes.py:50-59 | a catalog tab's rows are that catalog's items, each once, sorted by (T1, T2, Pos) as text |
| LvRoutes.CatalogTabsCover | app/routes/lv_routes.py:42-64 | every item has its row in the tab of its catalog |
| LvRoutes.PairsFormat | app/routes/lv_routes.py:67-80 | the method builds the pair tabs of the found items |
| LvRoutes.PairsFacts | app/routes/lv_routes.py:73 | the pairs are those of the items, each once, in ascending order |
| LvRoutes.PairTabRows | app/routes/lv_routes.py:74-78 | a pair's tab holds that pair's items, each once, sorted by Pos as text |
| LvRoutes.PairTabsCover | app/routes/lv_routes.py:67-80 | every item has its row in the tab of its pair |
| LvRoutes.GetLv | app/routes/lv_routes.py:30-80 | fails exactly when the search fails; otherwise the flat rows, the catalog tabs or the pair tabs of the found items |
| LvMatcher.Subset | app/services/lv_matcher.py:46 | the qualifying entries, each from the catalog |
| LvMatcher.Take | app/services/lv_matcher.py:47 | the prefix of length min(len(s), n) |
| LvMatcher.RoughFilter | app/services/lv_matcher.py:30-47 | fails exactly on a category that is not text; at most 120 catalog entries; all qualifying when any qualifies, else the first 120 |
| LvMatcher.RoughFilterKeepsOrder | app/services/lv_matcher.py:46-47 | when some entry qualifies, the result is the first min(k, 120) of the k qualifying entries, in catalog order |
| LvMatcher.MissingFieldQualifies | app/services/lv_matcher.py:42-43 | an entry without `dn` or `rohrgrabentiefe_m` always qualifies |
| LvMatcher.TrenchCategoryQualifies | app/services/lv_matcher.py:39-41 | a category naming trench work qualifies whatever the line |
| LvMatcher.RoughFilterIgnoresCase | app/services/lv_matcher.py:36 | the filter gives the same for a line and its lower-cased form |
| LvMatcher.AfterColon | app/services/lv_matcher.py:100 | a suffix of the line after its first colon, not starting with white space, with only white space left out |
| LvMatcher.ParseAufmass | app/services/lv_matcher.py:101-102 | one entry per line with a colon, in order, each the text after that line's first colon |
| LvMatcher.AfterColonOfEntry | app/services/lv_matcher.py:100 | "label: value" gives back the value |
| LvMatcher.ParseLines | app/services/lv_matcher.py:101-102 | a block of labelled lines gives back each line's value, in order |
| LvMatcher.ParseSkipsUnlabelled | app/services/lv_matcher.py:102 | lines without a colon give no entry |
| Order.SortBy | app/services/lv_loader.py:65 | `sorted(xs, key=…)`: a permutation in key order |
| Order.SortByStable | main.py:83 | elements with equal keys keep their input order |
| Order.SortByKeepsTies | main.py:83 | each sorted element comes from its input position, and two elements with equal keys appear in the order of those positions |
| Order.Filter | app/services/lv_loader.py:72-80 | a comprehension with a condition: the elements satisfying it, each from the input |
| Order.FilterIdempotent | app/services/lv_loader.py:72-80 | filtering twice with the same condition is filtering once |
| Order.CountMultiset | main.py:2011 | rearranging a list keeps how many of its elements satisfy a test |
| Text.StripSlice | app/services/lv_loader.py:30-32 | `strip` removes exactly the leading and trailing white space |
| Text.StripIdempotent | main.py:373 | stripping twice is stripping once |
| Text.SplitLines | app/services/lv_matcher.py:102 | `splitlines`: the lines without terminators, none holding a line break |
| Text.SplitJoin | app/services/lv_matcher.py:102 | lines joined with "\n" split back into the same lines |
| Text.NatToStringValue | app/services/lv_loader.py:62 | the digits of `str(n)` read back as n |

## Left out

- The ezdxf document is not modelled: setup, layers (`register_layers`), header variables, saving the file, MText. Dimension styles and hatch patterns are not modelled either. Entities are recorded by layer and points without styling.
- The outer contour of a merged pair (main.py:1540-1834) is one event carrying its corner coordinates. The 1e-3 trimming of the sloped contour lines (main.py:1682-1781) is not modelled.
- The pipe drawing routines (`draw_pipe_front`, `draw_pipe_front_piecewise`) are parameters that return the effective length. `app/cad/pipe.py` does not match the calls main.py makes. A pipe line is written only for a positive effective length.
- Python's text form of a float is a parameter `fmt`. `float()` on a text value is a parameter `parse` that may fail. Numbers are `real`, with no rounding.
- JSON list and object values of element fields or catalog keys are not modelled. A catalog value (`Json.Field`) is missing, `null` or a scalar. A value of an edit request (`Units.UpdateValue`) is `null` or a scalar. An element field is missing or holds a value of its type. A connection `group` is a list whose members are `null` or scalars; a list or object member is not modelled (`int()` raises on it, as on `null`, so the group would read as empty).
- Elements.Element: a JSON `null` in an element field is the same as a missing key. Numeric text such as "3" and floats such as 2.7 cannot stand in the integer fields (`trench_index`, `for_trench`, `between`, `seq`). Where main.py calls `int()` or `float()` on such a field, it raises TypeError on `null` and accepts numeric text. The model takes the default instead. This affects Normalize.ReindexTrenches, Normalize.CollectElements, Lookups.SurfacesForTrench, the lookups by `between` and GenBasics.DepthsOf.
- Lookups.SurfacesForTrenchSorted: a present `"seq": null` counts as missing. main.py:83 raises TypeError once any surface of the trench has the key, but the model returns the surfaces in list order.
- Normalize.ReindexTrenches: a `null` `trench_index` counts as missing, so the trench keeps its position as old number. main.py:92 raises TypeError there.
- Normalize.CollectElements: a `null` `for_trench` counts as 0 and the element is re-pointed at trench N. main.py:118 raises TypeError there and aborts the normalization.
- GenBasics.DepthsOf: a `null` `depth_left` or `depth_right` falls back to `depth`. main.py:1222-1223 raises TypeError there.
- `int()` on text accepts only ASCII digits, an optional sign, white space and single underscores between digits. Other Unicode digits are not modelled.
- `str.lower` covers ASCII, Latin-1 and the capital sharp s. Other scripts are left unchanged.
- `\w`, and with it `\b`, covers ASCII and Latin-1 letters and digits and the underscore (`Text.IsWordChar`); Python's `\w` on a str pattern is every Unicode letter and digit. A Greek, Cyrillic or other non-Latin-1 letter after a number therefore ends the word in the model but not in Python. This affects the `\b` tests of Aufmass.ClassOf, Units.ExplicitTrench, Units.MatchDn and Units.NumToMeters.
- Case-insensitive matching (`re.I`) compares `Text.Lower` of each character. Python's `re.I` also equates a few other characters with ASCII letters, for example 'ſ' with 's', the Kelvin sign with 'k' and 'İ' with 'i'. A line written with them is classified differently in the model (Aufmass.ClassOf, Aufmass.NumberAfter).
- `Path(f).name` is the text after the last '/'. Other path normalization is not modelled.
- LV file I/O is not modelled.
  - File contents are values: a missing file, an unreadable file, or a file whose JSON is not an array of objects.
  - The `lru_cache` on `load_lv` has no effect on the result and is not modelled.
  - The matcher's module-level `CATALOG` is a parameter of `RoughFilter`.
- The FastAPI layer is not modelled: query validation, HTTP errors and JSON responses. The `format` parameter is one of the three values the route's pattern allows. `set_lv_link` (app/routes/lv_routes.py:82-96) is not modelled; it is a session and hashing endpoint.
- The language-model calls are not modelled: the add, edit and remove handlers, and the async best-match code in app/services/lv_matcher.py:64-97. Session management, payments, invoices and the other routes are not part of this model.
- Dead or superseded code in main.py is not modelled.
  - The first `_coerce_updates` (main.py:481-495) and the first `_ALLOWED_EDIT_FIELDS` (main.py:297) are not modelled, because later definitions replace them.
  - `_to_meters` (main.py:467-479), `_base_y` (main.py:1208-1210) and the legacy drawing helpers at main.py:1020-1066 are not modelled, because the generator never calls them.
- `_build_edit_context` (main.py:548-570) is not modelled. It only formats prompt text.
- Generator.SoloExtras: it states only that the pipe and the surfaces add no plan view and no tally, and which `drawn_*` sets may grow. What they draw is stated by GenParts.PipePart and GenParts.SurfacePart.
- Generator.PairMarks: it states only that the marks and surfaces add no plan view and no tally, and which sets may grow. Their content is stated by GenMerge.GokMark, GenMerge.SeamMark and GenParts.SurfacePart.
- Generator.PairPipes: it states only that the single pipes of a pair add no plan view and no tally, and which pipe sets may grow. What a pipe call draws is in GenParts.PipePart.
- Generator.PairElevations: on success, it states which plan views and tallies are added, not the geometry. The geometry is in GenMerge.PairFronts and GenMerge.ClusterPart.
- LvRoutes.PairTabRows: tab keys "T1-T2" are not proved distinct. Two different pairs can give the same key, for example ("1-2", "3") and ("1", "2-3"). The source does not separate them either.
