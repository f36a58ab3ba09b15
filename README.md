# blot, modelled in Dafny

blot draws plots in a terminal. A caller builds a **figure**, configures it,
and adds **layers**; each layer is a scatter, line or bar plot over
caller-owned X/Y arrays. Rendering then runs in two phases.

First it settles the frame:

- the screen size (configured, or the terminal's less a border);
- the X/Y limits (configured, or the union of the layers' limits, widened);
- the margins for the axes and the legend;
- the usable area.

Then it draws:

- each layer becomes a **canvas** (a character grid, or a bitmap of Braille dots);
- the two **axes** place their ticks;
- the canvases are merged into a **screen** buffer, together with the ANSI
  colour escapes.

A small command-line tool wraps this. It extracts numbers from lines of
text, either by position or by regular-expression groups, and accumulates
them per input. A C++ header wraps the C API and throws exceptions.

This project models that core, one module per source unit:

| module | models |
|---|---|
| `BlotTypes` | plot types, data-type tags, render flags and records |
| `BlotUtils` | min/max/abs/swap of a named type, alignment, the suspect-pointer test |
| `BlotColor` | colour numbers and escapes |
| `BlotBraille` | dot geometry and mask tables |
| `BlotCanvas` | the header's grid and the library's bitmap canvas |
| `BlotLayer` | the typed element readers and the layer constructor |
| `BlotAxis` | tick lookup and tick layout |
| `BlotScreen` | the screen size and the merge |
| `BlotFigure` | the setters, adding layers, and the render pipeline |
| `BlotNames` | plot-type names |
| `BlotCpp` | the C++ argument checks |
| `BlotExtract` | the number scanner |
| `BlotPlotter` | the sample accumulator |

Every fallible call returns an `Outcome`, which is one of:

- `Ok(value)`;
- `Fail(code)`, an errno placed in a GError;
- `Abort`, a `g_assert`, `g_error` or `exit(1)`;
- `Overrun`, a write outside the buffer the source allocated.

**Modelling choices**

- C `double` is `real`.
- Unsigned arithmetic wraps explicitly (`U32`, `Conv`).
- Flags and tags are bit-vectors.
- Records the library mutates in place are classes (`Figure`, `Screen`,
  `Canvas`, `Plotter`, `Extract`). Loops over buffers are methods proved
  against specification functions: `ScreenText`, `Positional`, `LastTickAt`
  and `Accumulate`.
- The header and library files disagree about the layout of the canvas,
  layer and axis records. Each revision is modelled with its own record:
  - the header's canvas grid and layer/axis readers;
  - the library's constructors.

**Behaviour of the code worth noting**

- **Tick count:** without explicit labels it is `screen_length/5` on a vertical axis and `screen_length/10` on a horizontal one (lib/blot_axis.c:22-28).
- **Tick labels:** a generated label is the tick value printed with `"%.3f"` into at most 16 bytes (lib/blot_axis.c:85-88).
- **Zero-count layers:** `blot_layer_new` checks only the plot type, so a layer with count 0 and no arrays is accepted (lib/blot_layer.c:18-35).
- **Axis range:** `blot_axis_new` stores `data_max` in `data_min` and never sets `data_max` (lib/blot_axis.c:51-55).
- **Render output:** render returns the frame it settled, standing for the screen built from it.
- **abs_t at a signed minimum:** negating the minimum of `int` or a wider signed type is undefined in C; `AbsT` models it as the two's complement wrap, which gives the minimum back.

## Model

| member | source | states |
|---|---|---|
| BlotTypes.CombineDataType | include/blot_types.h:62 | the combined tag carries the X nibble of the first tag, the Y nibble of the second, and no other bit |
| BlotTypes.XKindOf | include/blot_types.h:37-42 | an X nibble decodes exactly when it is one of the five kinds, and the kind re-encodes to that nibble |
| BlotTypes.YKindOf | include/blot_types.h:44-49 | the same for the Y nibble |
| BlotTypes.DataCode | include/blot_types.h:51 | BLOT_DATA_(X,Y) holds X's code under the X mask and Y's code under the Y mask |
| BlotTypes.DataCodeRoundTrip | include/blot_types.h:51-62 | every X/Y kind pair encodes to a tag at most BLOT_DATA_TYPE_MAX that decodes back to the same pair |
| BlotTypes.DataCodeInjective | include/blot_types.h:51-62 | distinct kind pairs get distinct tags |
| BlotTypes.HomogeneousCodes | include/blot_types.h:53-59 | the five same-kind tags are 0x00, 0x11, 0x22, 0x33, 0x44 and the maximum is 0xFF |
| BlotTypes.FlagsAreDistinctBits | include/blot_types.h:66-78 | each render flag is a single bit and no two flags share one |
| BlotTypes.SetFlagKeepsOthers | include/blot_types.h:66-78 | OR-ing in one flag sets it and leaves every other flag as it was |
| BlotUtils.Conv | include/blot_utils.h:37-45 | conversion to a named C integer type lands in its range; to 32-bit unsigned it is reduction modulo 2^32 |
| BlotUtils.ConvIdentity | include/blot_utils.h:37-45 | a value already in the type's range is unchanged |
| BlotUtils.MinT | include/blot_utils.h:37-40 | min_t returns one of its converted arguments and is no larger than either |
| BlotUtils.MaxT | include/blot_utils.h:42-45 | max_t returns one of its converted arguments and is no smaller than either |
| BlotUtils.MinR | include/blot_utils.h:37-40 | min_t(double, …) returns one argument, no larger than the other |
| BlotUtils.MaxR | include/blot_utils.h:42-45 | max_t(double, …) returns one argument, no smaller than the other |
| BlotUtils.AbsT | include/blot_utils.h:53-56 | abs_t converts to the named type first; an unsigned value is returned as converted; a signed one gives its magnitude, except the minimum of int or a wider type, which stays negative |
| BlotUtils.AbsTAtTypeEdges | include/blot_utils.h:53-56 | abs_t(unsigned, -1) is 2^32-1, abs_t(int, INT_MIN) is INT_MIN, and a signed char's -128 is promoted to give 128 |
| BlotUtils.MinLeMax | include/blot_utils.h:37-45 | min_t never exceeds max_t on the same arguments |
| BlotUtils.MinMaxUnsigned32 | include/blot_utils.h:37-45 | on in-range unsigned values min_t/max_t are the ordinary minimum and maximum |
| BlotUtils.UtilsExamples | tests/test_init.cpp:71-111 | the unit test's min/max at the 32-bit signed extremes and abs of -1, 0, 1 |
| BlotUtils.SwapT | include/blot_utils.h:47-51 | swap_t writes each cell with the other's old value converted through the named type and the destination type; no other cell changes |
| BlotUtils.SwapMixedWidths | tests/test_init.cpp:93-104 | swapping through a 32-bit type truncates a 64-bit all-ones value to 2^32-1 |
| BlotUtils.AlignSizeUp | include/blot_utils.h:58 | ALIGN_SIZE_UP on a 64-bit size_t stays within size_t; AlignSizeUpIsLeastMultiple proves it is the least multiple of a power-of-two alignment at least the size |
| BlotUtils.AlignUpRoundsDown | include/blot_utils.h:58 | ALIGN_SIZE_UP is (size + bytes - 1) rounded down to a multiple of bytes |
| BlotUtils.AlignUpInIsLeastMultiple | include/blot_utils.h:58 | for a power-of-two alignment that does not overflow, the result is the least multiple of it that is at least size |
| BlotUtils.AlignSizeUpIsLeastMultiple | include/blot_utils.h:58 | the same at 64 bits |
| BlotUtils.PointerSuspect | include/blot_utils.h:11-13 | __pointer_suspect on a 64-bit pointer; PointerSuspectRanges characterises it as the first and last 4096 bytes |
| BlotUtils.PointerSuspectRanges | include/blot_utils.h:11-13 | a pointer is suspect exactly when it lies in the first or the last 4096 bytes of the address space |
| BlotUtils.PointerSuspectExamples | tests/test_init.cpp:13-20 | NULL, 1 and 4095 are suspect; 4096 is not |
| BlotColor.BrightIsBasePlusEight | include/blot_color.h:11-36 | each bright colour is its base colour plus eight; the dim names equal the base ones |
| BlotColor.EscapeConstants | include/blot_color.h:38-49 | the reset and clear-screen sequences, character by character, and their lengths |
| BlotColor.Decimal | include/blot_color.h:45-46 | `%d` of a non-negative value yields at least one character, all decimal digits |
| BlotColor.DecimalRoundTrip | include/blot_color.h:45-46 | reading the digits printed by `%d` back gives the number |
| BlotColor.DecimalLength | include/blot_color.h:39 | a number below 10^k prints in at most k digits |
| BlotColor.Snprintf | include/blot_color.h:58-62 | g_snprintf writes a prefix of the text shorter than the size, and the whole text when it fits |
| BlotColor.MkcolRuntime | include/blot_color.h:58-62 | mkcol_runtime's text always fits the 16-byte COL_BUF_LEN buffer; MkcolRuntimeForeground and MkcolRuntimeBackground give its text |
| BlotColor.MkcolConstant | include/blot_color.h:65-66 | mkcol_constant is the prefix, the colour's literal and `m`; MkcolConstantAgrees proves it equals the runtime escape below 256 |
| BlotColor.MkcolRuntimeForeground | include/blot_color.h:58-62 | the runtime foreground escape is the prefix, the colour modulo 256 in decimal, then `m`; it fits COL_BUF_LEN |
| BlotColor.MkcolRuntimeBackground | include/blot_color.h:58-62 | the same for the background escape |
| BlotColor.MkcolRuntimeRoundTrip | include/blot_color.h:58-62 | parsing a foreground escape gives back the colour (modulo 256) |
| BlotColor.MkcolConstantAgrees | include/blot_color.h:65-66 | the compile-time escape of a colour below 256 equals the runtime one |
| BlotColor.MkcolExamples | tests/test_c_color.cpp:5-40 | the test's escapes for colours 9, 15 and white |
| BlotBraille.MapIndex | include/blot_braille.h:33 | a dot inside the 2 x 4 block gets a slot below 8; MapIndexBijection proves the slots are distinct |
| BlotBraille.MapIndexBijection | include/blot_braille.h:29-33 | MAP_INDEX maps the 2 x 4 dot positions one-to-one onto 0..7 |
| BlotBraille.Glyph | include/blot_braille.h:27 | a mask becomes a code point in the Braille block 0x2800..0x28FF |
| BlotBraille.TablesAgreeWithOrderMaps | lib/blot_braille.c:5-31 | both order maps are permutations of 0..7 and each mask table entry is 1 shifted by its order-map entry |
| BlotBraille.MasksAreDistinctBits | lib/blot_braille.c:19-24 | the eight masks are distinct single bits whose OR is 0xFF, the full glyph 0x28FF |
| BlotBraille.TablesMatchDiagram | include/blot_braille.h:15-24 | each mask is the bit the dot diagram gives its position, and the upside-down tables are the normal ones with Y flipped |
| BlotBraille.SingleDotGlyph | include/blot_braille.h:15-27 | the top-left dot (bottom-left when flipped) is glyph 0x2801 |
| BlotCanvas.CellIndex | include/blot_canvas.h:37 | the 32-bit index is row*cols+col whenever that does not wrap; CellIndexInGrid and CellIndexInjective give its bounds and injectivity |
| BlotCanvas.CellIndexInGrid | include/blot_canvas.h:37 | an in-grid cell's index row*cols+col lies below cols*rows |
| BlotCanvas.CellIndexInjective | include/blot_canvas.h:37 | distinct in-grid cells have distinct indices |
| BlotCanvas.CellAt | include/blot_canvas.h:45-60 | reading outside the grid gives NUL |
| BlotCanvas.SetThenGet | include/blot_canvas.h:27-60 | after writing one cell, that cell reads the new character and every other cell reads as before |
| BlotCanvas.Canvas.constructor | include/blot_canvas.h:9-16 | the record holds its size, flags, colour and buffer |
| BlotCanvas.Canvas.Get | include/blot_canvas.h:45-60 | blot_canvas_get is NUL outside the grid |
| BlotCanvas.Canvas.Set | include/blot_canvas.h:27-43 | blot_canvas_set succeeds exactly inside the grid, writes only that cell, and a later get returns it |
| BlotCanvas.BitmapCoversGrid | lib/blot_canvas.c:31-33 | the bitmap byte count is the least number of cells covering the bitmap size |
| BlotCanvas.Plan | lib/blot_canvas.c:10-53 | EINVAL exactly for a zero side; an error when Braille meets NO_UNICODE; otherwise a geometry whose bitmap covers the grid |
| BlotCanvas.PlanChoices | lib/blot_canvas.c:21-53 | Braille doubles the columns and quadruples the rows and picks the normal or upside-down masks; a plain canvas plots `*` or a bullet |
| BlotCanvas.BitmapCanvas.constructor | lib/blot_canvas.c:39-53 | the record holds the planned geometry and style and a fresh bitmap |
| BlotCanvas.BitmapCanvas.New | lib/blot_canvas.c:10-58 | blot_canvas_new fails exactly as Plan does and otherwise returns the planned record with a zeroed bitmap |
| BlotLayer.ReadAs | include/blot_layer.h:63-82 | an element is read only at the kind it was stored as and inside the array; otherwise the read is undefined |
| BlotLayer.GetX | include/blot_layer.h:50-85 | ERANGE exactly for index > count; with no X array the index itself; an abort for an unknown X kind; else the element at its kind |
| BlotLayer.GetY | include/blot_layer.h:87-116 | ENOENT without a Y array; ERANGE exactly for index > count; an abort for an unknown Y kind; else the element |
| BlotLayer.GetXY | include/blot_layer.h:118-127 | the pair of both reads, or the first one's failure |
| BlotLayer.GetXYInRange | include/blot_layer.h:118-127 | in a well-formed layer, an index below the count gives the X value (the index when X is absent) and the Y element |
| BlotLayer.NibblesDecodeIndependently | include/blot_layer.h:50-116 | get_x depends only on the X nibble of the tag and get_y only on the Y nibble |
| BlotLayer.MixedCodeExample | include/blot_layer.h:118-127 | a double-X, int32-Y layer reads (1.5, 8.0) at index 1 and ERANGE at 3 |
| BlotLayer.GetXReadsPastEnd | include/blot_layer.h:53 | as written, index == count passes the check and reads one past a count-sized array |
| BlotLayer.CheckedReadersAreDefined | include/blot_layer.h:50-116 | with `index >= count` as the check, every accepted index reads a defined element and every other one gives ERANGE (or ENOENT) |
| BlotLayer.LayerRecord.constructor | lib/blot_layer.c:27-33 | the record stores every argument unchanged |
| BlotLayer.LayerRecord.New | lib/blot_layer.c:9-36 | blot_layer_new fails with EINVAL exactly for an unknown plot type, and otherwise returns a fresh record of its arguments |
| BlotAxis.GetTickAt | include/blot_axis.h:46-56 | EFAULT exactly for a NULL axis; a tick only for a visible axis at a position on it, and then that position's entry |
| BlotAxis.GetTickAtAgreesWithEntries | include/blot_axis.h:46-56 | an invisible axis or a position past its end gives no tick; otherwise the entry |
| BlotAxis.TickCount | lib/blot_axis.c:22-28 | explicit labels give their count; otherwise at most a fifth of the length, and fewer ticks than positions |
| BlotAxis.TickValue | lib/blot_axis.c:69-76 | tick ti's value is ti jumps of (max-min)/tick_count above min; TickValuesSpanRange proves the first is min and all lie in [min, max) |
| BlotAxis.TickPos | lib/blot_axis.c:72-77 | tick ti's position is ti*screen_length/tick_count truncated; TickPosInRange and TickPosIncreasing place it on the axis, strictly increasing |
| BlotAxis.TickLabel | lib/blot_axis.c:79-94 | an explicit label is one of the given labels; a generated one is present and shorter than the 16-byte room |
| BlotAxis.RoundHalfAway | lib/blot_axis.c:81 | round() is within one half of its argument |
| BlotAxis.LastTickAt | lib/blot_axis.c:74-101 | the entry at a position is the last tick placed there, or none when no tick lands there |
| BlotAxis.TickPosInRange | lib/blot_axis.c:72-77 | every tick's position lies on the axis |
| BlotAxis.TickPosIncreasing | lib/blot_axis.c:72-77 | with no more ticks than positions, later ticks sit strictly further along |
| BlotAxis.EveryTickHasItsEntry | lib/blot_axis.c:74-101 | then every tick is the one its position's entry points at |
| BlotAxis.TickValuesSpanRange | lib/blot_axis.c:69-76 | the first tick's value is the minimum and every value lies in [min, max) |
| BlotAxis.TickArithmetic | lib/blot_axis.c:69-77 | the loop's jump arithmetic computes the tick value and the truncated position |
| BlotAxis.ExplicitLabelExample | lib/blot_axis.c:80-83 | with three labels on three cells, tick 1 is at cell 1 and carries "Label1" |
| BlotAxis.AxisTable.constructor | lib/blot_axis.c:51-57 | the record's constants, data_min holding data_max as written, and fresh tables of the computed sizes |
| BlotAxis.AxisTable.New | lib/blot_axis.c:14-106 | blot_axis_new aborts exactly when a generated label is longer than 16; it overruns exactly when labels meet an empty axis; otherwise it has the computed layout |
| BlotAxis.AxisTable.PlaceTicks | lib/blot_axis.c:69-101 | the loop leaves every tick's value and label in place, and each position's entry pointing at the last tick placed there |
| BlotScreen.DataSize | lib/blot_screen.c:13-20 | the size is a multiple of 16, at least 16 with CLEAR, and zero exactly when there is no CLEAR and the 32-bit cell count is zero |
| BlotScreen.Prefix | lib/blot_screen.c:50-54 | the clear-screen prefix is 7 characters with CLEAR and empty otherwise |
| BlotScreen.TopCharIsLastNonEmpty | lib/blot_screen.c:62-71 | a cell shows the last canvas with a character there, or NUL when none has one |
| BlotScreen.RowText | lib/blot_screen.c:58-80 | a row's text has one character per column |
| BlotScreen.RowsLength | lib/blot_screen.c:56-86 | m rows of text take m*(columns+1) characters |
| BlotScreen.RowTextAt | lib/blot_screen.c:58-80 | character x of a row is the top character of cell x |
| BlotScreen.RowsAt | lib/blot_screen.c:56-86 | in the merged rows, row y, column x is that cell's top character and the end of a row is a newline |
| BlotScreen.ScreenText | lib/blot_screen.c:50-88 | the text merge writes: the prefix, then each row's top characters and a newline; ScreenTextLength and RowsAt give its length and contents |
| BlotScreen.ScreenTextLength | lib/blot_screen.c:50-86 | the merged text is the prefix plus rows*(columns+1) characters |
| BlotScreen.MergedTextFits | lib/blot_screen.c:13-20 | for a non-empty screen, the merged text is shorter than the buffer the constructor allocates |
| BlotScreen.ZeroSizedScreens | lib/blot_screen.c:13-20 | as written, a screen with 0 columns or rows and no CLEAR gets an empty buffer |
| BlotScreen.ZeroColumnsMergeOverruns | lib/blot_screen.c:13-20 | as written, merging any canvases into a 0 x 24 screen without CLEAR writes past its empty buffer |
| BlotScreen.NewChecked | lib/blot_screen.c:10-33 | a constructor that rejects a zero side, and otherwise sizes the buffer as written |
| BlotScreen.CheckedScreensFit | lib/blot_screen.c:10-33 | every screen the checked constructor accepts has room for its text and the NUL |
| BlotScreen.Screen.constructor | lib/blot_screen.c:10-33 | the record holds its size, flags, an empty used length and a fresh buffer of DataSize |
| BlotScreen.Screen.GetText | lib/blot_screen.c:93-100 | EFAULT exactly for a NULL screen, else the used part of the buffer |
| BlotScreen.Screen.TopCell | lib/blot_screen.c:62-71 | the canvas loop finds the top character of a cell |
| BlotScreen.Screen.Merge | lib/blot_screen.c:42-91 | EFAULT for NULL; an overrun exactly for an empty buffer; an abort exactly when the text does not fit; otherwise the buffer holds the merged text and a NUL |
| BlotScreen.Screen.MergeInto | lib/blot_screen.c:50-91 | the merge on a screen keeps its size and flags, and has the same outcomes as Merge |
| BlotScreen.Screen.WritePrefix | lib/blot_screen.c:50-54 | the clear-screen escape is written first when asked for |
| BlotScreen.Screen.MergeRows | lib/blot_screen.c:56-86 | the row loop appends the rows' text after what is there, or aborts exactly when the text reaches the buffer's end |
| BlotScreen.Screen.Put | lib/blot_screen.c:73-79 | one character is appended and nothing past it changes |
| BlotScreen.Screen.MergeRow | lib/blot_screen.c:58-86 | one row's cells and its newline are appended, or the check after a character aborts |
| BlotFigure.FinalizeDimensions | lib/blot_figure.c:159-182 | a configured size is used as it is, and without one a failed terminal query is the error; FinalizeDimensionsFromTerminal covers the terminal case |
| BlotFigure.FinalizeDimensionsFromTerminal | lib/blot_figure.c:159-182 | a terminal size is always accepted; from 12 cells on the border is removed; below 12 the minimum is used; 0 or 1 wrap to near 2^32 |
| BlotFigure.BorderedSide | lib/blot_figure.c:175-176 | max_t(unsigned, n-2, minimum) for one side, by cases |
| BlotFigure.UnsignedBorder | lib/blot_figure.c:175-176 | n-2 in unsigned arithmetic wraps below 2 |
| BlotFigure.TinyTerminalWraps | lib/blot_figure.c:175-176 | a 1 x 24 terminal yields a 0xFFFFFFFF x 22 screen |
| BlotFigure.CheckedDimensionsFitTerminal | lib/blot_figure.c:159-182 | the corrected size is at least the minimum, never wider than the terminal unless it is the minimum, and agrees with the code when both sides are at least 2 |
| BlotFigure.Accumulate | lib/blot_figure.c:193-220 | the scan holds a box only when some non-empty layer's limits were obtained; AccumulateFails, AccumulateNothing and AccumulateContains give the rest |
| BlotFigure.AccumulateFailureSticks | lib/blot_figure.c:193-214 | once a layer's limits cannot be computed, the failure stands whatever layers follow |
| BlotFigure.AccumulateFails | lib/blot_figure.c:193-214 | the scan fails exactly when some non-empty layer has no limits |
| BlotFigure.AccumulateNothing | lib/blot_figure.c:193-220 | the scan finds nothing exactly when every layer is empty |
| BlotFigure.AccumulateContains | lib/blot_figure.c:193-214 | the union contains every non-empty layer's limits, and is ordered when they are |
| BlotFigure.WidenOrders | lib/blot_figure.c:225-233 | widening ordered limits makes them strictly ordered and contains them |
| BlotFigure.LimitsOf | lib/blot_figure.c:184-236 | limits set on both axes are used as they are; any failure is ENOENT or get_lim's error; LimitsOfProperties states the computed case |
| BlotFigure.LimitsOfProperties | lib/blot_figure.c:184-236 | configured limits are used as given; computed ones are strictly ordered and contain every non-empty layer; ENOENT exactly when every layer is empty |
| BlotFigure.Figure.FinalizeLimits | lib/blot_figure.c:184-236 | the loop over the layers computes LimitsOf |
| BlotFigure.TopWantedCases | lib/blot_figure.c:277-280 | the legend wants no row, one row per layer, or two per layer, by the above/below flags |
| BlotFigure.FinalizeMargins | lib/blot_figure.c:238-295 | the right margin is 0 and every other margin is at most half its side; MarginsClamped gives each margin's value |
| BlotFigure.MarginsClamped | lib/blot_figure.c:238-295 | each margin is at most half its side; the right margin is 0; the bottom is 2 (clamped) unless NO_X_AXIS; the left is 0 with NO_Y_AXIS; the top follows the legend flags |
| BlotFigure.LeftMarginFromDigits | lib/blot_figure.c:251-275 | with a Y axis the left margin is 7 plus the wider of the two limits' widths, unless clamped |
| BlotFigure.FinalizeUsable | lib/blot_figure.c:297-316 | it fails only with EFAULT or EINVAL, and a usable area is at least the minimum and no larger than the screen |
| BlotFigure.UsableAfterMargins | lib/blot_figure.c:297-316 | after finalize_margins, the usable area never hits EFAULT; it is EINVAL exactly below the minimum, else the screen less the margins |
| BlotFigure.FirstFailure | lib/blot_figure.c:368-378 | the first layer whose canvas fails, every earlier one having succeeded |
| BlotFigure.FrameOfProperties | lib/blot_figure.c:382-398 | a settled frame's usable area is at least the minimum, fills the screen with the margins, and is the length each axis receives |
| BlotFigure.RenderSpec | lib/blot_figure.c:328-422 | EINVAL without layers; success only when no canvas, axis or screen fails, with the settled frame; RenderedFrame states what that frame guarantees |
| BlotFigure.RenderedFrame | lib/blot_figure.c:328-422 | a successful render has strictly ordered limits and a usable area of at least the minimum; the configured size and limits are used when set, and otherwise the limits contain every non-empty layer |
| BlotFigure.CanvasHandle.Delete | lib/blot_figure.c:318-326 | a deleted canvas is no longer live |
| BlotFigure.FreeCanvasesArray | lib/blot_figure.c:318-326 | the first count canvases are deleted and their slots cleared; later slots are untouched |
| BlotFigure.BuildCanvases | lib/blot_figure.c:365-378 | either every layer gets a distinct live canvas, or the first failure's error is returned with every canvas built so far deleted |
| BlotFigure.FinishRender | lib/blot_figure.c:382-419 | the first error among the axes and the screen is returned, and every canvas is deleted either way |
| BlotFigure.Figure.constructor | lib/blot_figure.c:16-24 | a zeroed figure with white axes and no layers |
| BlotFigure.Figure.SetAxisColor | lib/blot_figure.c:60-65 | the axis colour is stored and nothing else changes |
| BlotFigure.Figure.SetScreenSize | lib/blot_figure.c:68-81 | accepted exactly within 10..1000 per side and then stored; otherwise EINVAL with no change |
| BlotFigure.Figure.SetXLimits | lib/blot_figure.c:84-95 | accepted exactly when min < max and then stored; otherwise EINVAL with no change |
| BlotFigure.Figure.SetYLimits | lib/blot_figure.c:97-108 | the same for Y |
| BlotFigure.Figure.SetXAxisLabels | lib/blot_figure.c:110-120 | accepted exactly when the count is non-zero iff labels are given, and then stored; otherwise EINVAL |
| BlotFigure.Figure.Plot | lib/blot_figure.c:125-154 | EINVAL with no change for an unknown plot type; otherwise one layer of the arguments is appended and the rest of the figure is unchanged |
| BlotFigure.Figure.Scatter | include/blot_figure.h:75-83 | a scatter layer is appended |
| BlotFigure.Figure.Line | include/blot_figure.h:85-93 | a line layer is appended |
| BlotFigure.Figure.Bar | include/blot_figure.h:95-103 | a bar layer is appended |
| BlotFigure.Figure.SettleFrame | lib/blot_figure.c:335-355 | dimensions, limits, margins and usable area, each failure ending the render |
| BlotFigure.Figure.Render | lib/blot_figure.c:328-422 | EFAULT for NULL; otherwise the outcome RenderSpec describes, with one canvas per layer on success and every canvas deleted by the end |
| BlotNames.PlotTypeToString | include/blot_names.h:8-15 | a name exactly for the three plot types: "scatter", "line", "bar" |
| BlotNames.PlotTypeNamesRoundTrip | include/blot_names.h:8-15 | each plot type's name reads back as that type |
| BlotNames.PlotTypeNamesInjective | include/blot_names.h:8-15 | distinct plot types have distinct names |
| BlotCpp.DataTypeOf | include/blot.hpp:87-101 | a tag exactly for the five supported element types, EINVAL otherwise |
| BlotCpp.DataTypeOfDecodes | include/blot.hpp:87-101 | each supported type's tag is its homogeneous code and decodes to its kind in both nibbles |
| BlotCpp.CombinedTagDecodes | include/blot.hpp:200-202 | combining the X and Y element tags reads X at T's kind and Y at U's |
| BlotCpp.Plot | include/blot.hpp:186-207 | EINVAL exactly for empty Y, mismatched non-empty X, an unsupported type or plot type; otherwise a layer whose X array is NULL exactly when X is empty |
| BlotCpp.SetXAxisLabels | include/blot.hpp:175-182 | EINVAL exactly for no labels; otherwise the labels and their count are stored |
| BlotExtract.NextStart | cli/extract.hpp:31-35 | the scan stops at the first digit or '.' at or after the position, or at the end |
| BlotExtract.NextStartSkipsOnlyNoise | cli/extract.hpp:31-35 | every character skipped is neither a digit nor '.' |
| BlotExtract.Advance | cli/extract.hpp:31-35 | the loop computes NextStart |
| BlotExtract.SignsAreSkipped | cli/extract.hpp:31-35 | a minus sign is skipped, so "x=-1.5" is read from the 1 |
| BlotExtract.ReadsOf | cli/extract.hpp:19-29 | the parse at every position, each consuming at least one character |
| BlotExtract.Positional | cli/extract.hpp:77-97 | the positional loop from a position; PositionalResult, PositionalBound and PositionalKeepsTokens state what it keeps |
| BlotExtract.PositionalKeepsTokens | cli/extract.hpp:77-97 | the positional loop keeps the tokens from the start position on, at most N of them |
| BlotExtract.PositionalBound | cli/extract.hpp:87 | never more than N values |
| BlotExtract.PositionalResult | cli/extract.hpp:77-97 | from the beginning, the result is the first N tokens at or after the start position |
| BlotExtract.PositionalSkips | cli/extract.hpp:84 | the noise before the first token is skipped |
| BlotExtract.PositionalStops | cli/extract.hpp:87 | at the end of the text, or with N values kept, the loop stops |
| BlotExtract.PositionalAborts | cli/extract.hpp:19-29 | a token from_chars rejects ends the program |
| BlotExtract.PositionalAdvances | cli/extract.hpp:87-95 | one step keeps the value from the start position on and moves past the token and the noise after it |
| BlotExtract.ParsePositional | cli/extract.hpp:77-97 | the positional loop computes Positional |
| BlotExtract.RegexFrom | cli/extract.hpp:65-72 | the group loop as written; RegexFromContents states what it stores |
| BlotExtract.RegexFromContents | cli/extract.hpp:65-72 | from group i the loop succeeds exactly when every remaining group is a number and they fit the array, and then keeps what was stored and puts group k's number at index k-1 |
| BlotExtract.RegexResultContents | cli/extract.hpp:52-75 | no match stores nothing; a match succeeds exactly when its capture groups are numbers and at most N, and then stores one value per capture group, in order |
| BlotExtract.TooManyGroupsOverrun | cli/extract.hpp:65-72 | as written, a match with more than N groups writes past the array |
| BlotExtract.RegexFromCapped | cli/extract.hpp:65-72 | the bounded loop never overruns and keeps min(groups, N) values, starting with those read so far |
| BlotExtract.CappedAgreesWhenGroupsFit | cli/extract.hpp:65-72 | when the groups fit, the bounded loop gives the code's result |
| BlotExtract.ParseRegex | cli/extract.hpp:52-75 | the regex path computes RegexResult: no match gives no values, else one value per group |
| BlotExtract.Extract.constructor | cli/extract.hpp:15-16 | a default Extract reads by position from token 0 |
| BlotExtract.Extract.Set | cli/extract.hpp:38-40 | set replaces the mode |
| BlotExtract.Extract.Parse | cli/extract.hpp:49-98 | parse takes the regex path for a pattern, the positional path otherwise |
| BlotPlotter.TotalLengthAppend | cli/plotter.hpp:40-44 | appending one sample to one store adds one to the total |
| BlotPlotter.TotalLengthPositive | cli/plotter.hpp:46 | the total is positive exactly when some store is non-empty |
| BlotPlotter.TotalLengthOfEmpty | cli/plotter.hpp:34-38 | empty stores total zero |
| BlotPlotter.Plotter.constructor | cli/plotter.hpp:34-38 | one empty store pair per input and a zero count |
| BlotPlotter.Plotter.Add | cli/plotter.hpp:40-44 | x and y are appended to that layer only, and the count stays the number of samples held |
| BlotPlotter.Plotter.HaveData | cli/plotter.hpp:46 | true exactly when the count is positive, which is when some layer holds a sample |

## Left out

- **Allocation failures:** `g_malloc`, `g_realloc_n` and `g_new0` always succeed in the model, so their error returns are not modelled.
- **NULL figure in the setters and `blot_figure_plot`:** these methods take a non-null `Figure`. The NULL case is modelled only for `Render`, `Screen.Merge` and `Screen.GetText`.
- **`fig->layers == NULL` with a non-zero count in render:** it cannot arise through the API, because `Plot` keeps the layer list and the count together.
- **Figure cleanup/delete and the delete functions of layers, axes, screens and canvases:** memory release is modelled only as the `live` flag of `CanvasHandle`.
- **Abstract callees in render:** `blot_layer_get_lim`, `ceil(log10(·))`, `blot_layer_render`, `blot_axis_new` and `blot_screen_new` (as called from render), `blot_screen_render` and the terminal size query. They are inputs (`RenderEnv`), because their code is not part of this model.
- **Tick-label formatter:** `"%.3f"` is a parameter `fmt`, because floating-point formatting is not modelled.
- **`BLOT_CANVAS_BITMAP_CELL_SIZE`:** it is a parameter `cellSize`, because its definition is not part of this model.
- **Floating point:** `double` is modelled as `real`.
  - Rounding, NaN and infinities are not modelled.
  - `(unsigned)` of a double is modelled as truncation with 32-bit wrap-around; for negative values the C behaviour is undefined.
- **Canvas colour and the per-layer colour escapes written by `blot_screen_render`:** not modelled. `blot_screen_render` is not part of this model.
- BlotExtract.Extract.Parse: `std::from_chars` is an abstract parser that consumes at least one character. `std::regex_search` is an abstract matcher whose groups lie inside the text. The `unsigned` token counter is unbounded, so a wrap after 2^32 tokens is not modelled.
- **Logging:** `spdlog` tracing and error messages are not modelled.
- BlotPlotter.Plotter.Add: requires the layer to be one of the configured inputs, because `operator[]` is unchecked in the source and an out-of-range layer is undefined behaviour.
- **`Plotter::plot`:** not modelled, because it is I/O, locale and timing around the figure calls modelled above. The configuration object is also left out: only its input count is used.
- **`Plotter::m_data_history` and the timing statistics:** not modelled, because nothing in the modelled operations reads them.
- **C++ wrappers:**
  - The `Exception` class with its copy and move semantics, and the `Dimensions` and `Screen` wrappers, are left out because they only forward calls and errors.
  - The overloads `scatter`, `line` and `bar` of `Blot::Figure` are left out because they forward to `plot`.
  - The C++ setters are left out because each forwards one C setter and rethrows its error.
- **`ONCE`, `container_of`, `offsetof` and the `fg`/`bg` colour macros:** left out, because they are preprocessor conveniences with no behaviour to prove.
- **Environment-variable configuration:** left out, because it is I/O.

## Findings

| source | as written | input that shows it | evidently intended | confidence | as-written member | corrected member |
|---|---|---|---|---|---|---|
| include/blot_layer.h:53 | `blot_layer_get_x`/`get_y` reject `index > count` | a layer of count 3 over 3-element arrays, index 3: the check passes and the read is one past the end | reject `index >= count` | not executed | BlotLayer.GetXReadsPastEnd | BlotLayer.CheckedReadersAreDefined |
| lib/blot_screen.c:13-20 | `blot_screen_new` accepts 0 columns or rows, giving `data_size == 0` without CLEAR; the merge then writes the newline of the first row at `data[0]` (lib/blot_screen.c:84), past the empty buffer, before the check at line 85 can stop it (with 0 rows the NUL at line 88 is the write past the end) | columns 0, rows 24, no flags | reject a zero side | not executed | BlotScreen.ZeroColumnsMergeOverruns | BlotScreen.CheckedScreensFit |
| lib/blot_figure.c:175-176 | `max_t(unsigned, cols - 2, 10)` wraps for a terminal of 0 or 1 columns or rows | a 1 x 24 terminal gives a 4294967295 x 22 screen | clamp before subtracting, so the result is the minimum | not executed | BlotFigure.TinyTerminalWraps | BlotFigure.CheckedDimensionsFitTerminal |
| cli/extract.hpp:65-72 | the regex path writes `array[i-1]` for every capture group, with no check against N | a pattern with 4 groups parsed into a ParseResult with N = 2 | stop after N values | not executed | BlotExtract.TooManyGroupsOverrun | BlotExtract.CappedAgreesWhenGroupsFit |
