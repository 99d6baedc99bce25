# Thicket: a verified model of the handheld's firmware

Thicket is an off-grid messenger: a small board with a LoRa radio, a keypad and a Sharp memory LCD. This
project models the parts of its firmware where a mistake is hard to see from one function alone, and proves
what they promise over every input and every run.

- **The LCD driver and the panel** (`Bits`, `Panel`, `VirtualPanel`, `Driver`, `SharpLcd`, `Shapes`,
  `ScaledText`). The driver is a cache with dirty lines and an encoder; the panel is an independent decoder of
  the same byte stream. Both are classes over byte arrays, refined to `DriverModel.Step` and
  `PanelModel.Transaction`; the invariant between them is proved over every sequence of calls.
- **The page renderer** (`Utf8`, `Chunks`, `SourceLines`, `TableCells`, `TableCollect`, `TableBuffer`, `TableInputs`, `Table`,
  `CellWalk`, `Layout`, `LayoutWalk`, `LayoutTables`, `LayoutColumns`, `LayoutScroll`, `LayoutHeights`, `LayoutText`,
  `LayoutRows`, `LayoutUniform`, `LayoutRects`, `LayoutLinks`, `LayoutPlaced`, `LayoutFaces`, `LayoutFields`, `LayoutLegible`,
  `LayoutGrid`, `LayoutTableText`, `LayoutPages`, `LayoutInputs`, `PageRenderer`, `Frames`, `ComposePage`, `Picture`). The
  renderer re-flows the page on every frame and draws only the rows in the window. `LayoutSpec` gives its rules
  as functions of a pen and a log of draws, parameterised by what is in view: the whole page, a window, or
  a window's frame before it is cut to the panel.
  What they come to on the page is told again without them: text as typed cell by cell (`LayoutPlaced`, `LayoutFields`), a table
  as columns and rules (`LayoutGrid`).
  The class `PageRenderer` refines the window's reading; the theorems compare the two readings, and any two frames,
  and follow the log down to the pixels of the panel. Table rows are stripped, cut and collected in the class
  `TableBuffer` until the table closes.
- **The split-frame radio protocol** (`SplitFrames`, `LoRaWire`) and **the interrupt that wakes the task** (`Wake`), as state
  machines; sender and receiver are classes refining the protocol's functions.
- **The identity vault's attempt limiter** (`VaultLimiter`, `IdentityVault`), with the power cut between any two file operations.
- **The keypad** (`KeyLogic`, `Keyboard`, `Tca8418`): held keys, one-shot modifiers and the ghost guard against a reading of
  the raw history; the scanner's FIFO drained over a bus that may answer anything.
- **The sealed files** (`Primitives`, `Pbkdf2`, `SealedBlob`, `EncryptedStore`, `PasswordFile`): both formats and PBKDF2
  over uninterpreted primitives.
- **The reply text** (`Reply`).

Conventions: bytes are `bv8`; the firmware's sixteen-bit coordinates are the subset type `U16`, with every
wrap written out as `Wrap16`; numbers that cannot wrap in the range of a statement are unbounded. What
the model cannot see (fonts, the Micron parser, HMAC, AES, HKDF, the bus, the channel, the interrupt's timing) is
an arbitrary function or an arbitrary sequence of steps.

## What the proofs found

Each of these is a property one would expect and the code does not have. The named lemmas give an input that breaks
it, as a sequence of callbacks from a fresh renderer where the renderer is meant, and the exact condition under which it holds.

- `fill_rect` and `draw_hline` never return when `x + w` or `y + h` passes 65535 (`Shapes.CounterStopsIff`). Two
  callbacks can ask for that: a dark text field whose pen stands beyond the right margin, because the bar's
  remaining width wraps (`LayoutInputs.SpacesThenFieldNeverEnds`, seventy spaces and the field), and the rule under a
  fallback heading whose line end is indented past its text (`LayoutInputs.DeepLineEndNeverEnds`). On the page and in
  every frame, all fills end exactly when neither occurs on screen (`LayoutRects.EveryFillEndsIff`).
- A table can make the page's height depend on the scroll offset, when a word wraps inside its cell. The two-cell column
  floor does it (`TableFit.FloorOverflows`, `LayoutInputs.OverflowingTableMovesThePage`), and so does a table begun while a
  heading's face is open (`LayoutInputs.HeadingTableMovesThePage`); in both the frame at the top of the page is taller than
  the one beyond it. For every page that fits sixteen bits, all frames end alike exactly when no table has a cell that wraps
  (`LayoutHeights.FramesAlikeIff`); for given column widths, over all contents, exactly when every column ends at the margin
  or before it, or the text is literal (`LayoutColumns.TablesAlikeIff`).
- Rows are not always uniform. In the middle of a tall heading a blank line, preformatted text, a table, a field or a
  divider is enough (`LayoutInputs.BlankMidHeadingOverlaps`, `LayoutInputs.LiteralMidHeadingMixes`,
  `LayoutInputs.TableMidHeadingOverlaps`, `LayoutInputs.FieldMidHeadingMixes`, `LayoutInputs.FieldBelowHeadingOverlaps`,
  `LayoutInputs.DividerMidHeadingMixes`). Over all sequences, counting every character drawn (glyphs of runs, field values,
  marks, dividers, the mark of a clipped row), rows are uniform exactly when whatever is drawn starts with a character that goes
  with the last one (`LayoutUniform.RowsUniformIff`); for each of those cases the condition on the pen is exact too
  (`LayoutUniform.BlankThenRunIff`, `LayoutUniform.LiteralAfterGlyphIff`, `LayoutUniform.LineThenRunIff`,
  `LayoutUniform.FieldAfterGlyphIff`, `LayoutUniform.BlankThenFieldIff`, `LayoutUniform.DividerAfterGlyphIff`).
- A link that wraps is boxed at its first row, where the source's comment says its last and that the box is enough to press;
  a link that starts at the margin gets a box of no width at all (`LayoutInputs.LinkAtMarginHasNoBox`).
  `LayoutLinks.LinkBoxIff` says exactly when the box is on the last row and when it has a width.
- `begin()` leaves seven things behind: literal mode, background, underline, the heading's face with its row height, bold,
  and a rule still to be drawn (`Frames.WhatIsLeft`, `Frames.TextLeaves`). Over pages that open with a link, a mark or an image,
  and so over all pages, the next frame is the fresh one exactly when nothing was left (`Frames.LinkFirstIff`,
  `Frames.FieldFirstIff`, `Frames.ImageFirstIff`, `Frames.FramesIndependentIff`); pages that open with text can tell only a
  heading's face (`Frames.TextFirstIff`). A heading whose line was not ended is enough (`Frames.UnendedHeadingShows`); once
  it was, three of the seven can remain (`Frames.EndedPagesLeaveThree`).
- A table cell is cut at 255 bytes or where the buffer ends, inside a character if need be: 128 two-byte characters are
  stored with a lone lead byte at the end (`TableCollect.CutCellIsBroken`). The layout's walks then step past the cell.
  On well-formed source they never do exactly when no cut splits a character (`PageComposer.WellFormedSourceFeedsIff`).
- A word that fits a row and the spaces before it that do not, met at the left edge, are not wrapped but drawn past the margin
  (`LayoutInputs.WideTokenOverhangs`); a run stays inside exactly when none of its tokens does that (`LayoutText.RunInsideIff`).
- White text needs black behind it, and two callbacks draw it on nothing. A word too long for a row is broken at the margin without
  its background, so on a dark one it is white on white paper (`LayoutLegible.LongWordIsInvisible`); a checkbox or radio
  button after dark text is, too (`LayoutLegible.MarkAfterDarkText`). Nothing else is: over every callback and pen, white
  characters have their black exactly when neither happens (`LayoutLegible.StepLegibleIff`).
- A heading is aligned by its width in the body face and then drawn in its own. A right-aligned heading of one word that takes its
  face stands at the left edge, one row down (`LayoutPlaced.RightHeadingStandsLeft`); of all headings of one word that fit, those
  that stand where they should are exactly those aligned left (`LayoutPlaced.HeadingLandsIff`). Without a heading's face
  alignment keeps its promise (`LayoutPlaced.AlignedLands`).
- A blank line collapses into the last one unless text came between: after a divider, a table, a link or a field
  alone it makes no gap (`LayoutPages.BlankAfterDividerIsLost`, `LayoutPages.BlankGapIff`).
- Dithered backgrounds are anchored to the panel, so they shift against the page unless the scroll changes by
  a multiple of four rows (`FramePicture.TextureSwimsIff`).
- The 32-line cap drops the rest of a cell exactly when it needs more lines (`CellWalk.CapLosesNothingIff`): forty-two short
  words in an eight-cell column lose ten (`TableInputs.LongCellLosesText`).
- Scaled text is a blow-up of the unscaled text exactly while the pen does not wrap
  (`ScaledText.ScaledTextIsBlowUpIff`) and no missing glyph's box would reach the panel (`ScaledText.BlowUpIff`): it is drawn
  unscaled and left out scaled (`ScaledText.MissingGlyphIff`).
- A ninth key held down is forgotten, and what is counted and typed afterwards goes by the keys still known
  (`KeyLogic.NinthKeyIsForgotten`, `KeyLogic.TrackedIsHeldIff`).
- Lose half of one split packet and all of the next seven, and the eighth's first half is taken for the missing one:
  a packet nobody sent is delivered (`SplitFrames.GapOfEightAliases`, `SplitFrames.PureIffNoAlias`).
- An interrupt taken before the task's handle is published can be slept on, for at most one timeout
  (`RadioWake.EarlyInterruptIsSleptOn`, `RadioWake.OnePassChecksAll`).
- The try file outlives the vault: a device that destroyed its vault seals a new one on the next boot
  and can never open it (`VaultLimiter.LockedForever`, `VaultLimiter.ResealedIsShut`). The counter's write is not checked:
  each one that is lost is a free guess (`VaultLimiter.LostWritesAreFreeGuesses`), and if the tenth is, the vault
  goes with nine stored (`VaultLimiter.LostTenthDeletesAtNine`).
- Neither sealed format compares the version byte with a known version: any authentic version opens
  (`EncryptedStore.Decrypt`, `PasswordFile.Open`).

## Model

| member | source | states |
|---|---|---|
| Bits.ReverseMirrors | lib/SharpLcd/src/SharpLcd.cpp:17-22 | the three swap steps reverse a byte: bit i of the result is bit 7-i of the input |
| Bits.ReverseInvolution | lib/SharpLcd/src/SharpLcd.cpp:17-22 | reversing twice gives the byte back |
| Bits.AddressRoundTrip | lib/SharpLcd/src/VirtualPanel.cpp:79-82 | the panel recovers the gate line the driver addressed |
| Bits.PaintOther | lib/SharpLcd/src/SharpLcd.cpp:39-49 | painting one pixel of a byte leaves the seven others |
| Wire.AddressDigits | lib/SharpLcd/src/SharpLcd.h:129-131 | the address byte of a line is its number with the digits reversed: its lowest bit counts 128, its highest one |
| Wire.ModeBytesAre | lib/SharpLcd/src/SharpLcd.cpp:211-213 | the mode bytes are 0x80, 0x20 and 0x00, and 0x40 more in the other VCOM phase |
| Wire.UpdateOnTheWire | lib/SharpLcd/src/SharpLcd.cpp:202-231 | an update is its mode byte, then for each dirty line in order 52 bytes, address, the line's fifty bytes of the framebuffer and a zero, and a last zero |
| Wire.FullUpdateFits | lib/SharpLcd/src/VirtualPanel.h:47-48 | all lines dirty, an update is 12482 bytes and fills the panel's buffer exactly |
| Wire.DecodeFrame | lib/SharpLcd/src/VirtualPanel.cpp:75-90 | one line frame, followed by anything, decodes to that line stored and the rest decoded |
| Wire.DecodeFrames | lib/SharpLcd/src/SharpLcd.cpp:202-231 | the driver's whole update decodes to exactly its dirty lines; every other line of the image is untouched |
| Wire.SameLinesSameImage | lib/SharpLcd/src/SharpLcd.cpp:202-231 | images that agree line by line are the same image |
| VirtualPanelDecoder.VirtualPanel.Select | lib/SharpLcd/src/VirtualPanel.cpp:45-50 | selecting empties the transaction; deselecting applies what was written |
| VirtualPanelDecoder.VirtualPanel.Write | lib/SharpLcd/src/VirtualPanel.cpp:52-60 | bytes are appended while selected; past the buffer's size they are dropped and flagged |
| VirtualPanelDecoder.VirtualPanel.ApplyTransaction | lib/SharpLcd/src/VirtualPanel.cpp:62-91 | mode byte, clear and line frames, decoded in place, do what the transaction function says |
| VirtualPanelDecoder.VirtualPanel.Pixel | lib/SharpLcd/src/VirtualPanel.cpp:93-97 | a pixel reads as ink in the decoded image, and white off the panel |
| DriverModel.PlotAllInk | lib/SharpLcd/src/SharpLcd.cpp:39-49 | after any drawing the touched on-panel pixels have its colour and every other pixel is as before |
| DriverModel.FlushSends | lib/SharpLcd/src/SharpLcd.cpp:202-231 | from any linked state a flush sets exactly the dirty lines on the panel |
| DriverModel.RunLinked | lib/SharpLcd/src/VirtualPanel.h:47-48 | over every run from power-up the bus is left idle, VCOM flags agree and no transaction outgrows the panel's buffer |
| DriverModel.RunCoherent | lib/SharpLcd/src/SharpLcd.cpp:33-49 | over every run each clean line of the framebuffer stays equal to the panel's line |
| DriverModel.CoherentAfterWhite | lib/SharpLcd/src/SharpLcd.cpp:243-251 | that invariant holds from the first fill_white or clear on, whatever the caller's buffer held and whatever came before |
| DriverModel.FlushShowsFramebuffer | lib/SharpLcd/src/SharpLcd.cpp:202-231 | after any flush of a coherent state the panel's picture is the framebuffer's and nothing is dirty |
| DriverModel.BootCoherentIff | lib/SharpLcd/src/SharpLcd.cpp:33-37 | without a first fill_white or clear that holds exactly when the caller's buffer was white |
| SharpLcdDriver.SharpLcd.SetPixel | lib/SharpLcd/src/SharpLcd.cpp:39-49 | one pixel write on the arrays is one plot: off-panel ignored, a line dirtied only when its byte changes |
| SharpLcdDriver.SharpLcd.FillWhite | lib/SharpLcd/src/SharpLcd.cpp:33-37 | every byte white, every line dirty |
| SharpLcdDriver.SharpLcd.GetPixel | lib/SharpLcd/src/SharpLcd.cpp:51-55 | reads the ink that PlotAllInk describes |
| SharpLcdDriver.SharpLcd.FillRect | lib/SharpLcd/src/SharpLcd.cpp:193-196 | terminates under its real precondition and draws exactly the rectangle |
| SharpLcdDriver.SharpLcd.DrawHline | lib/SharpLcd/src/SharpLcd.cpp:198-200 | the same for a rule |
| SharpLcdDriver.SharpLcd.FillDither | lib/SharpLcd/src/SharpLcd.cpp:286-291 | the loops draw the pixels that DitherMembers describes, stopping at the panel's edges |
| SharpLcdDriver.SharpLcd.DrawText | lib/SharpLcd/src/SharpLcd.cpp:143-167 | draws each codepoint's glyph, or the missing box, and returns the pen after them, six pixels a character |
| SharpLcdDriver.SharpLcd.DrawTextScaled | lib/SharpLcd/src/SharpLcd.cpp:169-191 | the same in blocks of scale by scale, leaving a hole for a missing glyph |
| SharpLcdDriver.SharpLcd.Flush | lib/SharpLcd/src/SharpLcd.cpp:202-231 | the bytes sent line by line are the update transaction; the dirty set ends empty |
| SharpLcdDriver.SharpLcd.ToggleVcom | lib/SharpLcd/src/SharpLcd.cpp:233-241 | flips the driver's flag and tells the panel |
| SharpLcdDriver.SharpLcd.Clear | lib/SharpLcd/src/SharpLcd.cpp:243-251 | whitens framebuffer and panel together and leaves nothing dirty |
| Shapes.CounterStopsIff | lib/SharpLcd/src/SharpLcd.cpp:193-200 | a sixteen-bit loop to a start plus a length stops exactly when the sum fits sixteen bits |
| Shapes.RectMembers | lib/SharpLcd/src/SharpLcd.cpp:193-196 | the fill loops visit exactly the pixels of the rectangle |
| Shapes.DitherRowsMembers | lib/SharpLcd/src/SharpLcd.cpp:282-291 | the dither loops visit exactly the pattern's pixels inside rectangle and panel |
| Shapes.DitherTilesSeamlessly | lib/SharpLcd/src/SharpLcd.cpp:282-291 | two adjacent fills of one level draw what one fill of both would |
| Shapes.DitherMembers | lib/SharpLcd/src/SharpLcd.cpp:275-291 | the pixels a fill blackens are those on panel and rectangle whose place in the recursive Bayer order the level does not pass; none from level 249 |
| Shapes.DarkerBlackensMore | lib/SharpLcd/src/SharpLcd.cpp:275-291 | a darker fill blackens every pixel a lighter one does |
| Shapes.BlackIsSolidIff | lib/SharpLcd/src/SharpLcd.cpp:275-291 | up to level 8, and only so far, nothing of the rectangle is left out |
| Shapes.HalfIsAChequer | lib/SharpLcd/src/SharpLcd.cpp:275-291 | half grey is a checkerboard |
| Shapes.SquaresHold | lib/SharpLcd/src/SharpLcd.cpp:275-291 | every four-by-four square inside a fill, aligned or not, holds 16 black pixels up to level 8, 16 - (level + 7) / 16 up to 248 and none above |
| ScaledText.FittingTextBlowsUp | lib/SharpLcd/src/SharpLcd.cpp:169-191 | for strings whose glyphs all exist, drawn at the origin without the pen wrapping, pixel (X, Y) at scale k is black exactly when (X/k, Y/k) is unscaled |
| ScaledText.BlowUpIff | lib/SharpLcd/src/SharpLcd.cpp:143-191 | for every string drawn without the pen wrapping: it is blown up faithfully exactly when no missing glyph stands where its box would reach the panel |
| ScaledText.MissingGlyphIff | lib/SharpLcd/src/SharpLcd.cpp:143-191 | one missing codepoint: a box unscaled, nothing scaled, which shows below scale sixty |
| ScaledText.ScaledTextIsBlowUpIff | lib/SharpLcd/src/SharpLcd.cpp:169-191 | for a given length and scale that holds of all strings with no box to show exactly while the pen does not wrap |
| ScaledText.TextPixels | lib/SharpLcd/src/SharpLcd.cpp:139-167 | pixel by pixel, text at (x, y) is its glyphs' bits, the highest leftmost, one cell every six pixels, and a box four by seven for a glyph that is missing |
| Utf8.NextCpInverts | lib/SharpLcd/src/SharpLcd.cpp:119-133 | on every encoded scalar next_cp returns it and consumes its bytes; the heading check's inline decoder agrees up to three bytes and refuses four |
| Utf8.Leads | lib/MicronRender/src/MicronRender.cpp:13-21 | seq_len of the lead byte is exactly the bytes next_cp consumes |
| Utf8.TextRoundTrip | lib/MicronRender/src/MicronRender.cpp:13-27 | decoding encoded text gives it back, and cells counts its codepoints |
| Utf8.DividerDrawsItsCharacter | lib/MicronRender/src/MicronRender.cpp:421-426 | decoding the divider's bytes gives its character exactly for nonzero values below 0x10000 |
| TableFit.FitColumns | lib/MicronRender/src/MicronRender.cpp:649-683 | capping, scaling and topping up in place give the fitted widths and leave the rest of the array |
| TableFit.FittedScales | lib/MicronRender/src/MicronRender.cpp:660-682 | when scaling is needed every column is at least two cells wide and the total lies between room and room plus two per raised column; with none raised it is exactly the room |
| TableFit.FittedKeepsNatural | lib/MicronRender/src/MicronRender.cpp:649-660 | without scaling columns keep their capped width and fit the page with their gaps |
| TableFit.ColumnsFitIff | lib/MicronRender/src/MicronRender.cpp:660-682 | the fitted columns and the gaps between them fit the page exactly when nothing was scaled or the floors pushed the sum at most one cell past the room, the cell kept for a gap that is not there |
| TableFit.FloorOverflows | lib/MicronRender/src/MicronRender.cpp:667-675 | widths 33, 33, 33, 1, 1, 1 come out at 63 cells against a room of 60 |
| TableFit.OnlyTheWidestGrows | lib/MicronRender/src/MicronRender.cpp:667-682 | when scaling is needed no column gets less than its share of the room, or two cells, and only the first of those with the largest gets more, which is what was left of the room |
| LayoutWalk.RunWalks | lib/MicronRender/src/MicronRender.cpp:118-245 | the pen after any run, in every view, is the one worked out from the run's widths alone: so many rows down, at such a column |
| LayoutTables.FlushWalks | lib/MicronRender/src/MicronRender.cpp:685-782 | a table leaves the pen at the row its lines add up to, wraps inside cells counted only on lines that are laid out |
| LayoutTables.TableHeightIff | lib/MicronRender/src/MicronRender.cpp:712-755 | for every table, pen and face: any two frames leave the pen alike after it exactly when none of its cells wraps inside its column |
| LayoutColumns.TablesAlikeIff | lib/MicronRender/src/MicronRender.cpp:649-755 | for given natural widths, over every table that has them and any two scroll offsets: alike exactly when the text is literal or every column ends at the margin or before it |
| LayoutColumns.BodyWidthsHold | lib/MicronRender/src/MicronRender.cpp:660-682 | in the body face that holds when the fitted widths and the gaps between them fit the page, and only then if the last column was not raised above its natural width |
| LayoutInputs.OverflowingTableMovesThePage | lib/MicronRender/src/MicronRender.cpp:667-675 | a page of that one table is taller in the frame at its top than in the one beyond it |
| LayoutInputs.HeadingTableMovesThePage | lib/MicronRender/src/MicronRender.cpp:253-258 | so does a table that fits in the body face, begun after a heading's letter |
| LayoutHeights.StepBelow | lib/MicronRender/src/MicronRender.cpp:85-95 | but for tables, a callback moves the pen alike in every view and wherever it stands |
| LayoutHeights.FramesAlikeIff | lib/MicronRender/src/MicronRender.cpp:85-95 | for every callback sequence whose page fits sixteen bits: any two frames, at any two scroll offsets, end with the same pen exactly when no table has a cell that wraps |
| CellText.CopyCell | lib/MicronRender/src/MicronRender.cpp:587-618 | stripping and copying in one pass store the first bytes of the text without its commands, at most 255 and what the buffer has room for, and flag the buffer's end |
| CellText.StrippedIsComplete | lib/MicronRender/src/MicronRender.cpp:590-617 | taking commands out leaves every character with all its bytes |
| CellText.StoredIsChunkedIff | lib/MicronRender/src/MicronRender.cpp:589-617 | a cell of well-formed text is stored as whole characters exactly when the cut splits none of what it says |
| CellText.TextCutIff | lib/MicronRender/src/MicronRender.cpp:589-617 | in encoded text a cut splits a character exactly when the byte behind it is a tail |
| CellText.MarkupComesOff | lib/MicronRender/src/MicronRender.cpp:589-617 | a cell written of text, two-byte commands, colours of three or six digits and links with or without a target is stored as its text and its links' labels, in order |
| TableCollect.CollectSound | lib/MicronRender/src/MicronRender.cpp:558-631 | whatever the rows, what is collected is at most sixteen rows of six cells, and each width is that of its column's widest cell |
| TableCollect.TableIsWellFormedIff | lib/MicronRender/src/MicronRender.cpp:558-631 | on well-formed rows, the table laid out is one the layout can walk exactly when no cell is cut inside a character |
| TableCollect.PlainRowComesBack | lib/MicronRender/src/MicronRender.cpp:574-630 | plain cells joined by bars and read as a row come back as themselves while there is room |
| TableCollect.FramedRowComesBack | lib/MicronRender/src/MicronRender.cpp:558-583 | so do cells with blanks around them in a row with bars and blanks at its ends |
| TableCollect.SeparatorAddsNothing | lib/MicronRender/src/MicronRender.cpp:564-568 | a line of dashes, colons, bars and blanks changes nothing |
| TableCollect.SeventeenthRowIsDropped | lib/MicronRender/src/MicronRender.cpp:570-570 | past sixteen rows a line is dropped and flagged |
| TableCollect.CutCellIsBroken | lib/MicronRender/src/MicronRender.cpp:589-619 | a cell of 128 two-byte characters is stored with a lone lead byte at its end |
| TableBuffering.TableBuffer.Open | lib/MicronRender/src/MicronRender.cpp:547-554 | a table opens empty |
| TableBuffering.TableBuffer.AddLine | lib/MicronRender/src/MicronRender.cpp:558-631 | one row, on the arrays: trimmed, split at its bars, each cell stripped, cut and indexed behind the ones before, the widths widened, and every row before it untouched |
| TableBuffering.TableBuffer.Close | lib/MicronRender/src/MicronRender.cpp:633-647 | the columns in use, read back from the arrays, are the table to lay out |
| Chunks.WellFormedIsChunked | lib/MicronRender/src/MicronRender.cpp:13-27 | well-formed text meets the condition the walks need: every step lands on a character boundary |
| CellWalk.CountLines | lib/MicronRender/src/MicronRender.cpp:685-710 | the counting walk returns the capped number of lines |
| CellWalk.SliceOf | lib/MicronRender/src/MicronRender.cpp:715-748 | the drawing re-walk returns the bounds of line ln's slice, empty past the last |
| CellWalk.WalksAgree | lib/MicronRender/src/MicronRender.cpp:685-748 | counting and drawing agree: the drawing walk starts line ln inside the cell exactly when the counting walk counted it |
| CellWalk.LineShape | lib/MicronRender/src/MicronRender.cpp:698-706 | every line moves forward, ends on a character boundary and takes at most the column's width |
| CellWalk.BreaksAt | lib/MicronRender/src/MicronRender.cpp:698-706 | a line takes the rest of the cell if it fits; else w characters, when a space follows; else up to its last space when that keeps two thirds of it, and w characters when not |
| CellWalk.SlicesPartition | lib/MicronRender/src/MicronRender.cpp:715-748 | the slices lie one after the other in the cell with nothing but spaces between them |
| CellWalk.DrawnCovers | lib/MicronRender/src/MicronRender.cpp:715-748 | the slices drawn hold every non-space byte of the cell once and in order |
| CellWalk.LinesBound | lib/MicronRender/src/MicronRender.cpp:697-708 | a cell of n bytes in a column of w takes so few lines that twice (lines - 1) times w stays below 3n |
| CellWalk.CapLosesNothingIff | lib/MicronRender/src/MicronRender.cpp:697-708 | the 32-line cap loses nothing exactly when the cell needs no more lines than that |
| TableInputs.LongRowIsStored | lib/MicronRender/src/MicronRender.cpp:574-630 | a row of source with forty-two words in its second cell is stored as it stands |
| TableInputs.LongCellLosesText | lib/MicronRender/src/MicronRender.cpp:685-710 | at depth four that cell needs forty-two lines of its eight-cell column, is given thirty-two in every frame, and the rest is in none |
| PageRendering.PageRenderer.Begin | lib/MicronRender/src/MicronRender.cpp:55-62 | starts a frame: which parts of the pen it resets, and which it keeps |
| PageRendering.PageRenderer.EmitText | lib/MicronRender/src/MicronRender.cpp:152-245 | the word-wrapping loops compute the run's pen and draws |
| PageRendering.PageRenderer.EmitLiteral | lib/MicronRender/src/MicronRender.cpp:118-150 | a literal run is drawn cell by cell and clipped with a mark |
| PageRendering.PageRenderer.OnTextRun | lib/MicronRender/src/MicronRender.cpp:283-376 | depth, alignment, heading face, bold and background are chosen in the source's order, then the run is emitted; where it lands is AlignedLands |
| PageRendering.PageRenderer.ChooseHeading | lib/MicronRender/src/MicronRender.cpp:325-347 | a heading takes its face exactly when the row is fresh and the face carries every codepoint |
| PageRendering.PageRenderer.OnLinkTo | lib/MicronRender/src/MicronRender.cpp:378-411 | a link is its caption plus a box recorded when the row is in view |
| PageRendering.PageRenderer.RecordLink | lib/MicronRender/src/MicronRender.cpp:402-410 | the link table is the first forty-eight boxes of the frame and says when there were more |
| PageRendering.LinkTableHolds | lib/MicronRender/src/MicronRender.cpp:402-410 | the table holds at most forty-eight boxes, all of them when there are no more |
| PageRendering.PageRenderer.OnDividerOf | lib/MicronRender/src/MicronRender.cpp:413-433 | the row is filled with the divider's character up to the margin |
| PageRendering.PageRenderer.OnFieldOf | lib/MicronRender/src/MicronRender.cpp:435-510 | bar, value or marks, and caption, cell by cell; what they show is FieldShows and MarkShows |
| PageRendering.PageRenderer.OnLineEndOf | lib/MicronRender/src/MicronRender.cpp:516-545 | rule, line advance, and the face cleared for the next logical line |
| PageRendering.PageRenderer.FlushTable | lib/MicronRender/src/MicronRender.cpp:646-783 | widths fitted in place, rows counted and drawn line by line, gutters drawn wherever the line's wraps left the pen, header and closing rules |
| PageRendering.PageRenderer.Handle | lib/MicronRender/src/MicronRender.cpp:283-799 | every callback, and a table as it was collected, moves pen and draws by the specified step, seen through the window |
| LayoutScroll.ScrollingNeverChangesLayout | lib/MicronRender/src/MicronRender.cpp:85-95 | for every callback sequence whose tables have no wrapping cell when their turn comes: the pen, row state and content height are the same at all scroll offsets, and each frame's draws are the page's filtered to the window and shifted |
| LayoutScroll.FramesAreCut | lib/MicronRender/src/MicronRender.cpp:85-95 | every frame, whatever its tables, is its own tall page filtered to the window and shifted, but for gutters a wrap has pushed out of sight |
| LayoutPlaced.ProseTypes | lib/MicronRender/src/MicronRender.cpp:152-245 | prose that fits what is left of its row is typed there: character k in the k-th cell from the pen on, blanks empty, in the run's colour |
| LayoutPlaced.AlignedLands | lib/MicronRender/src/MicronRender.cpp:289-304 | text that starts a row, takes no heading's face and fits: aligned left it is typed from the left edge, aligned right up to pixel 398, and centred with gaps that differ by a pixel at most |
| LayoutPlaced.OpenRowContinues | lib/MicronRender/src/MicronRender.cpp:289-304 | text on a row that is open goes on at the pen, whatever its alignment |
| LayoutPlaced.WideTextStartsLeft | lib/MicronRender/src/MicronRender.cpp:291-304 | text too wide for its row starts at the left edge, whatever its alignment |
| LayoutPlaced.HeadingLandsIff | lib/MicronRender/src/MicronRender.cpp:296-347 | a heading of one word that takes its face and fits its row stands where its alignment promises exactly when it is aligned left |
| LayoutPlaced.RightHeadingStandsLeft | lib/MicronRender/src/MicronRender.cpp:296-347 | aligned right, it is drawn at the left edge of the row below |
| LayoutPlaced.TokenWraps | lib/MicronRender/src/MicronRender.cpp:192-199 | a token that does not fit the rest of its row, its word fitting a whole one, is typed without its spaces from the left edge of the row below |
| LayoutPlaced.LongWordGrid | lib/MicronRender/src/MicronRender.cpp:174-189 | a word too long for any row, met at the left edge: with m cells to a row, character j stands in row j / m, column j % m |
| LayoutFaces.TextFaces | lib/MicronRender/src/MicronRender.cpp:253-281 | the ladder: all of a heading that takes its face is drawn in the face of its depth on a row of that face's height; other text is body, bold where asked for and carried; preformatted text is body |
| LayoutFaces.TakesHeadIff | lib/MicronRender/src/MicronRender.cpp:325-347 | a heading of well-formed text on a fresh row takes its face exactly when the face carries each of its characters, those past U+FFFF looked up as U+FFFF |
| LayoutFaces.TextDressed | lib/MicronRender/src/MicronRender.cpp:190-242 | text that fits its row is underlined from end to end in its own colour, two pixels above the row's end, and stands on unbroken ground of its background's shade; plain text has neither |
| LayoutFaces.TokenKnocks | lib/MicronRender/src/MicronRender.cpp:217-231 | on a background each character is knocked out: just before it its cell is filled with the other colour |
| LayoutFields.FieldShows | lib/MicronRender/src/MicronRender.cpp:438-489 | a text field has as many cells of its width as fit the row; in them stand its value's characters, or an asterisk for each when masked, then underscores exactly when there is no background |
| LayoutFields.MaskedFieldsLookAlike | lib/MicronRender/src/MicronRender.cpp:466-478 | two masked fields of one width with equally many characters are drawn alike, whatever the pen and the view |
| LayoutFields.CharsOfText | lib/MicronRender/src/MicronRender.cpp:470-474 | of well-formed text those characters are its scalars, one by one |
| LayoutFields.FieldBar | lib/MicronRender/src/MicronRender.cpp:449-459 | before them comes a bar as wide as the field or to the margin: black behind white characters, the background's texture behind black, none without |
| LayoutFields.MarkShows | lib/MicronRender/src/MicronRender.cpp:491-508 | a radio button is a filled or an empty circle and a checkbox a box, with a tick over it when it is prechecked, in one cell |
| LayoutFields.CaptionFollows | lib/MicronRender/src/MicronRender.cpp:507-509 | its caption is typed one blank cell after it |
| LayoutFields.DividerFills | lib/MicronRender/src/MicronRender.cpp:413-433 | a divider is its character sixty-six times from the left edge, two fewer for each of four depths |
| LayoutFields.LiteralShows | lib/MicronRender/src/MicronRender.cpp:118-150 | preformatted text is typed cell by cell, blanks too; what the row does not hold is dropped, and a mark takes the row's last cell exactly then |
| LayoutLegible.StepLegibleIff | lib/MicronRender/src/MicronRender.cpp:118-245 | for every callback and pen: each white character stands on black laid for it exactly when no word drawn in white is too long for a row and it is not a mark while white is the text's colour |
| LayoutLegible.PageIsLegible | lib/MicronRender/src/MicronRender.cpp:118-245 | over every sequence of such callbacks so it is |
| LayoutLegible.LongWordIsInvisible | lib/MicronRender/src/MicronRender.cpp:174-189 | a page of one word of more than sixty-six letters on a dark background draws nothing but white characters |
| LayoutLegible.MarkAfterDarkText | lib/MicronRender/src/MicronRender.cpp:491-506 | a checkbox or radio button after text on a dark background is white on nothing |
| LayoutPages.HeadingOccupies | lib/MicronRender/src/MicronRender.cpp:516-545 | a heading on its row takes 26, 16 or 13 pixels by depth and the leading, and leaves 9 below the first kind and 4 below the others |
| LayoutPages.BodyLineOccupies | lib/MicronRender/src/MicronRender.cpp:516-545 | a line of plain text that fits takes a body row and no gap |
| LayoutPages.FallbackIsRuled | lib/MicronRender/src/MicronRender.cpp:516-529 | a stepped heading that fell back to body text is ruled on its row's last line, at depth two to the margin and below that under its text; no other is |
| LayoutPages.BlankGapIff | lib/MicronRender/src/MicronRender.cpp:64-70 | over every sequence: a blank line makes a gap of one body row exactly when text has come since the last blank line or the page's top |
| LayoutPages.BlankAfterDividerIsLost | lib/MicronRender/src/MicronRender.cpp:64-70 | text, a blank line, a divider and a blank line: the second makes no gap |
| LayoutPages.LinkBoxFits | lib/MicronRender/src/MicronRender.cpp:378-411 | a link whose caption fits its row is boxed exactly around it, with its target |
| LayoutPages.ImageSays | lib/MicronRender/src/MicronRender.cpp:785-792 | an image shows its tag and its alternative text, or its address when there is none |
| LayoutPages.ImageStarts | lib/MicronRender/src/MicronRender.cpp:152-160 | on a row not yet open it starts at the left edge |
| LayoutPages.PartialSays | lib/MicronRender/src/MicronRender.cpp:794-799 | a partial shows its tag and its address, which is a link to itself |
| LayoutPages.LumaOrders | lib/MicronRender/src/MicronRender.cpp:33-37 | only a valid colour that is not the default is a background; more of any primary never darkens it; no background reads as white |
| LayoutPages.Primaries | lib/MicronRender/src/MicronRender.cpp:33-37 | black is 0, white 255, red 76, green 149, blue 29 |
| LayoutGrid.TableLineShows | lib/MicronRender/src/MicronRender.cpp:712-769 | a line of a table whose columns end on the page: each cell's slice is typed from its column on, with a one-pixel line in each gap, and the pen goes to the left edge a body row below |
| LayoutGrid.RowLinesIsMost | lib/MicronRender/src/MicronRender.cpp:685-710 | a row has as many lines as its tallest cell, and one at least |
| LayoutGrid.TableHeight | lib/MicronRender/src/MicronRender.cpp:685-782 | where no cell wraps inside its column a table is its rows' lines high, and four pixels |
| LayoutGrid.TableRules | lib/MicronRender/src/MicronRender.cpp:771-782 | a table draws two rules across the page whatever its rows: on the last line of its first row and under its last row |
| LayoutTableText.TableLosesNothing | lib/MicronRender/src/MicronRender.cpp:685-755 | whatever is cut into lines and wrapped, a table draws every character of every cell once and no other, when no cell needs more than thirty-two lines |
| LayoutText.RunLosesNothing | lib/MicronRender/src/MicronRender.cpp:152-245 | every non-space codepoint of a wrapped run is drawn exactly once and in order, from any pen |
| LayoutText.TokenInsideIff | lib/MicronRender/src/MicronRender.cpp:163-194 | exactly when a token's glyphs all lie between the left edge and the right margin: not when spaces plus word pass the row although the word alone fits and the pen is at the edge |
| LayoutText.RunStaysInside | lib/MicronRender/src/MicronRender.cpp:107-245 | a run of such tokens stays inside the margins from any pen at or past the edge, and a literal run always does |
| LayoutText.RunInsideIff | lib/MicronRender/src/MicronRender.cpp:107-245 | for every run: inside the margins exactly when it is literal or no token overhangs at the pen it meets |
| LayoutInputs.WideTokenOverhangs | lib/MicronRender/src/MicronRender.cpp:192-208 | ten spaces and a word of sixty letters on a fresh row: the word is drawn past the margin |
| LayoutRows.RunRowsIff | lib/MicronRender/src/MicronRender.cpp:118-245 | from any state a run keeps all rows uniform and disjoint exactly when they were and its first character goes with the last one drawn; its own wraps, cells and clip mark always do |
| LayoutUniform.RowsUniformIff | lib/MicronRender/src/MicronRender.cpp:97-105 | for every callback sequence, counting every character drawn: one height and one advance per row, inline bold, field values, marks and dividers included, and disjoint increasing rows, exactly when whatever is drawn starts with such a character |
| LayoutUniform.RowsAreUniformAndDisjoint | lib/MicronRender/src/MicronRender.cpp:253-258 | on the panel, at every scroll offset, it is enough that the pen allows it: blank lines on open rows no taller than a line, tables under such rows, literal text, fields and dividers in the body face |
| LayoutUniform.BlankThenRunIff | lib/MicronRender/src/MicronRender.cpp:64-70 | a blank line on a row with a character, then a run landing there: right exactly when the blank was pending or the row no taller than a line |
| LayoutUniform.LiteralAfterGlyphIff | lib/MicronRender/src/MicronRender.cpp:118-150 | literal text on a row with a character: right exactly when it is empty or no heading face is open |
| LayoutUniform.LiteralFirstIsRight | lib/MicronRender/src/MicronRender.cpp:118-150 | on a row with no character literal text is right in any face |
| LayoutUniform.LineThenRunIff | lib/MicronRender/src/MicronRender.cpp:766-769 | a table line with a character, then a run on the next: right exactly when the open face is no taller than a line |
| LayoutUniform.FieldAfterGlyphIff | lib/MicronRender/src/MicronRender.cpp:435-510 | a field on a row with a character: right exactly when it shows none of its own or no heading face is open |
| LayoutUniform.BlankThenFieldIff | lib/MicronRender/src/MicronRender.cpp:64-70 | a blank line there, then a text field: right exactly when the field shows nothing, or the blank was pending and no heading face is open, or the row was no taller than a line |
| LayoutUniform.DividerAfterGlyphIff | lib/MicronRender/src/MicronRender.cpp:413-433 | a divider on a row with a character: right exactly when no heading face is open |
| LayoutInputs.BlankMidHeadingOverlaps | lib/MicronRender/src/MicronRender.cpp:64-70 | heading letter, blank line, link: two rows overlap |
| LayoutInputs.LiteralMidHeadingMixes | lib/MicronRender/src/MicronRender.cpp:324-347 | heading letter, preformatted letter: two advances on one row |
| LayoutInputs.TableMidHeadingOverlaps | lib/MicronRender/src/MicronRender.cpp:712-770 | heading letter, two-row table: its lines overlap |
| LayoutInputs.FieldMidHeadingMixes | lib/MicronRender/src/MicronRender.cpp:466-478 | heading letter, text field: two advances on one row |
| LayoutInputs.FieldBelowHeadingOverlaps | lib/MicronRender/src/MicronRender.cpp:64-70 | heading letter, blank line, text field: two rows overlap |
| LayoutInputs.DividerMidHeadingMixes | lib/MicronRender/src/MicronRender.cpp:413-432 | heading letter, divider: two advances on one row |
| LayoutLinks.LinkBoxIff | lib/MicronRender/src/MicronRender.cpp:378-411 | for every caption and pen: the box is on the link's last row exactly when the caption did not wrap, and has a width exactly when the link ends right of its start, which unwrapped is whenever the caption advances |
| LayoutInputs.LinkAtMarginHasNoBox | lib/MicronRender/src/MicronRender.cpp:400-410 | a full row, then a link: the letter is drawn below and its box is zero wide at the end of the row above |
| LayoutRects.BarEndsIff | lib/MicronRender/src/MicronRender.cpp:454-459 | filling a dark field's bar ends exactly when the pen is not beyond the right margin |
| LayoutRects.RuleEndsIff | lib/MicronRender/src/MicronRender.cpp:522-529 | drawing a deep heading's rule ends exactly when the pen is not left of the line end's margin |
| LayoutRects.RunEnds | lib/MicronRender/src/MicronRender.cpp:118-245 | a run of up to 5000 bytes asks only for fills that end, wherever the pen stands |
| LayoutRects.StepEnds | lib/MicronRender/src/MicronRender.cpp:85-95 | in every view, a callback adds only fills that end exactly when it is not one of those two on screen |
| LayoutRects.EveryFillEndsIff | lib/MicronRender/src/MicronRender.cpp:85-95 | over every sequence and in every frame: all rectangles and rules can be drawn exactly when neither occurs |
| LayoutRects.GutterRowsEnd | lib/MicronRender/src/MicronRender.cpp:760-765 | gutters drawn below the window still end: a line wraps too few times to reach the end of sixteen bits |
| LayoutInputs.SpacesThenFieldNeverEnds | lib/MicronRender/src/MicronRender.cpp:194-208 | seventy spaces, then a dark field: the page asks for a bar that never ends |
| LayoutInputs.DeepLineEndNeverEnds | lib/MicronRender/src/MicronRender.cpp:522-529 | a one-letter fallback heading ended at a deeper indent: the page asks for a rule that never ends |
| SourceLines.SplitThenJoin | lib/MicronRender/src/ComposePage.h:34-42 | the pieces of a split hold no separator and joined by it are the whole: the source at its newlines, a table row at its bars |
| SourceLines.JoinThenSplit | lib/MicronRender/src/ComposePage.h:34-42 | and that is the only such split |
| PageComposer.ComposePage | lib/MicronRender/src/ComposePage.h:30-45 | the loop feeds exactly the newline split of the source, a blank line for an empty one; tables are collected as their rows arrive and laid out when they close; it returns where the pen ends |
| PageComposer.WellFormedSourceFeedsIff | lib/MicronRender/src/ComposePage.h:34-42 | with a parser that reports whole characters from whole lines: on well-formed source the layout gets well-formed runs and cells exactly when no table cell is cut inside a character |
| PageComposer.FramesAgree | lib/MicronRender/src/ComposePage.h:30-45 | two frames of one source, whatever came before them, have one height and draw the same page through their windows |
| Frames.TextForgetsTheLastFrame | lib/MicronRender/src/MicronRender.cpp:55-62 | two frames: the first ends its last line, the second opens with text; the second is a fresh renderer's, to its last draw |
| Frames.HistoryIsReachable | lib/MicronRender/src/MicronRender.cpp:55-62 | over every history of frames: the row height is the open face's, bold is off under one, and no background reads as white |
| Frames.OthersLeaveIt | lib/MicronRender/src/MicronRender.cpp:283-545 | only text and line ends change what a frame will leave behind |
| Frames.TextLeaves | lib/MicronRender/src/MicronRender.cpp:283-368 | each of them is left by one letter of text in a style that asks for it |
| Frames.EndedPagesLeaveThree | lib/MicronRender/src/MicronRender.cpp:516-545 | over every page whose last line was ended, from every reachable pen: the next frame starts fresh exactly when literal mode, background and underline are off |
| Frames.TextFirstIff | lib/MicronRender/src/MicronRender.cpp:283-368 | over every page that opens with text: the next frame is the fresh one exactly when no heading face was left open |
| Frames.UnendedHeadingShows | lib/MicronRender/src/MicronRender.cpp:97-105 | a heading letter whose line is not ended: some next page tells it, though literal mode, background and underline are off |
| Frames.FramesIndependentIff | lib/MicronRender/src/MicronRender.cpp:55-62 | over every page: the next frame is the fresh one exactly when nothing was left behind |
| Frames.LinkFirstIff | lib/MicronRender/src/MicronRender.cpp:378-411 | over every page that opens with a link: so |
| Frames.FieldFirstIff | lib/MicronRender/src/MicronRender.cpp:491-509 | over every page that opens with a checkbox or a radio button: so |
| Frames.TextFieldFirstIff | lib/MicronRender/src/MicronRender.cpp:439-489 | a text field that opens a frame draws itself as on a fresh renderer exactly when no face is left open but the third heading's, as tall as a line |
| Frames.ImageFirstIff | lib/MicronRender/src/MicronRender.cpp:785-792 | over every page that opens with an image: so |
| FramePicture.PointsAreCovered | lib/SharpLcd/src/SharpLcd.cpp:193-200 | the pixels a draw's loops visit are the pixels its geometry covers |
| FramePicture.EndsIsFillRectEnds | lib/SharpLcd/src/SharpLcd.cpp:193-196 | what the renderer is shown to ask for is exactly what the fill loop's precondition and its counter need |
| FramePicture.FrameShowsLog | lib/MicronRender/src/ComposePage.h:32-43 | after fill_white, the frame's draws and a flush, each panel pixel has the colour of the last draw covering it, whatever the panel showed before |
| FramePicture.ScrollingMovesThePicture | lib/MicronRender/src/MicronRender.cpp:85-95 | a page pixel that two frames show, with no row clipped at a window's edge reaching into it, has the same colour on the panel in both |
| FramePicture.TextureSwimsIff | lib/SharpLcd/src/SharpLcd.cpp:282-291 | two offsets show every texture alike exactly when they differ by a multiple of four rows |
| LoRaWire.LoRaSender.Send | lib/LoRaInterface/src/LoRaInterface.cpp:353-412 | one frame up to 254 bytes, two above, none longer than 255, each written out byte by byte and parsing back as the protocol's; the counter advances only for a split |
| LoRaWire.LoRaReceiver.OnFrame | lib/LoRaInterface/src/LoRaInterface.cpp:295-343 | a frame moves the one-slot reassembler by the protocol's step and hands up what it delivers |
| LoRaWire.Exchange | lib/LoRaInterface/src/LoRaInterface.cpp:295-412 | every packet of 1 to 508 bytes, its frames handed in order to any receiver whose slot does not hold its number, comes out once with the last of them, and leaves the slot free |
| LoRaWire.HeaderParses | lib/LoRaInterface/src/LoRaInterface.cpp:102-103 | flag and sequence survive the header whatever the random nibble |
| LoRaWire.CounterCounts | lib/LoRaInterface/src/LoRaInterface.cpp:379-380 | the masked counter is the number of split packets modulo eight, across the byte's wrap |
| SplitFrames.DeliversWhatArrived | lib/LoRaInterface/src/LoRaInterface.cpp:316-340 | on a channel that drops but keeps order, while no half-heard packet is followed by one of its number, what is delivered is exactly the packets that arrived whole, in order and unaltered |
| SplitFrames.CloseNeverAliases | lib/LoRaInterface/src/LoRaInterface.h:77-80 | frames heard fewer than eight split packets apart, or with an unsplit frame next, always meet that |
| SplitFrames.PureIffNoAlias | lib/LoRaInterface/src/LoRaInterface.cpp:316-340 | with bytes that tell their packet, every delivery is a packet that was sent if and only if nothing aliases |
| SplitFrames.GapOfEightAliases | lib/LoRaInterface/src/LoRaInterface.h:77-80 | a gap of exactly eight does alias |
| RadioWake.AsleepMeansDone | lib/LoRaInterface/src/LoRaInterface.cpp:276-295 | in every interleaving a task asleep with no notification has the flag down unless it was raised before publication, and then has checked every announced frame after it latched |
| RadioWake.NoLostWakeUp | src/main.cpp:1857-1861 | with the handle published before the first interrupt, no wake-up is ever lost |
| RadioWake.EarlyInterruptIsSleptOn | src/main.cpp:1650-1656 | an interrupt taken before that can be slept on |
| RadioWake.OnePassChecksAll | src/main.cpp:1864-1911 | what was announced when a pass begins is checked by the time the task next sleeps |
| VaultLimiter.TestedIsCounted | src/main.cpp:776-827 | over every run of boots, codes, lost writes, damage and power cuts: codes tested since the try file was removed never outnumber the stored count and the writes lost, and the count never passes ten |
| VaultLimiter.DeletedOnlyAtTen | src/main.cpp:803-813 | over every run the vault is deleted with the stored count at ten, or at nine exactly when the tenth write was lost |
| VaultLimiter.LostTenthDeletesAtNine | src/main.cpp:800-812 | a lost tenth write deletes the vault with nine stored |
| VaultLimiter.LostWritesAreFreeGuesses | src/main.cpp:786-788 | a counter write that is lost, unchecked, is a free guess, any number of times, and the bound on codes tested is attained |
| VaultLimiter.WholeBootIsBooted | src/main.cpp:790-820 | the steps of an undisturbed boot add up to the boot function |
| VaultLimiter.RightCodeOpensIff | src/main.cpp:790-820 | after any run, a boot with the right code opens the vault exactly when fewer than ten attempts are stored, and then leaves no count; otherwise it changes nothing |
| VaultLimiter.TenWrongCodesDestroy | src/main.cpp:800-812 | wrong codes are counted one by one, and the vault survives the ninth and not the tenth |
| VaultLimiter.LockedForever | src/main.cpp:790-796 | with ten stored no code is tested again, in any run |
| VaultLimiter.ResealedIsShut | src/main.cpp:876-887 | a vault sealed after a destruction serves its first boot and is never opened again, in any run |
| IdentityVault.Device.VaultOpen | src/main.cpp:790-820 | the file operations, in the source's order, do what the boot function says |
| IdentityVault.Device.BringupIdentity | src/main.cpp:844-887 | opens the vault there is, or seals a new one |
| KeyLogic.TrackedIsDistinct | lib/Keypad/src/InputLayer.cpp:19-46 | the tracked array never holds a key twice or more than eight |
| KeyLogic.TrackedIsHeldIff | lib/Keypad/src/InputLayer.cpp:19-46 | it is the held set throughout exactly when no more than eight keys are ever held |
| KeyLogic.TrackedIsKnown | lib/Keypad/src/InputLayer.cpp:19-46 | over every history it is the keys known to be held, where a key that goes down with eight known is not taken in |
| KeyLogic.NinthKeyIsForgotten | lib/Keypad/src/InputLayer.cpp:48-70 | nine keys down, eight up, two more down: three are held and the last is typed |
| KeyLogic.EmitsIff | lib/Keypad/src/InputLayer.cpp:48-97 | over every history: a character or action comes exactly from a fresh key other than 1, 2 and 3 leaving at most two known to be held; its mask has bit 1, 2 or 4 exactly when key 1, 2 or 3 is armed, and no other |
| KeyLogic.PendingIsParity | lib/Keypad/src/InputLayer.cpp:71-86 | over every history: bit 1, 2 or 4 of the mask is up exactly when key 1, 2 or 3 was accepted an odd number of times since last spent or reset; no other key puts one up |
| KeyLogic.RefusedCounts | lib/Keypad/src/InputLayer.cpp:65-69 | over every history: the refused counter is the number of fresh presses leaving three or more known to be held, modulo 2 to the 32 |
| Keyboard.InputLayer.KeyDown | lib/Keypad/src/InputLayer.cpp:48-97 | a press on the array is the specified step |
| Keyboard.InputLayer.TrackUp | lib/Keypad/src/InputLayer.cpp:37-46 | a release shifts the array over the released key |
| Keyboard.InputLayer.ResetKeys | lib/Keypad/src/InputLayer.cpp:106-111 | forgets keys and modifiers, keeps the refused counter |
| ScannerEvents.EncodeDecodes | lib/Keypad/src/Tca8418.cpp:8-23 | every matrix event is decoded from its byte |
| ScannerEvents.DecodeEncodes | lib/Keypad/src/Tca8418.cpp:8-23 | whatever decodes is a matrix event and this is its byte |
| ScannerEvents.KeyNumbers | lib/Keypad/src/Tca8418.cpp:8-23 | the byte is ten times the row plus the column, from one, and 128 more for a press |
| Scanner.Polled | lib/Keypad/src/Tca8418.cpp:62-112 | against any bus at all a poll keeps at most max events and makes at most fifteen event reads |
| Scanner.Tca8418.PollInto | lib/Keypad/src/Tca8418.cpp:62-112 | the drain loop fills the caller's array with exactly those events and touches nothing past them |
| Scanner.PollConserves | lib/Keypad/src/Tca8418.cpp:62-112 | on the chip's FIFO, events returned followed by the decoding of what is left equal the decoding before; with room and a true count the FIFO is emptied |
| Scanner.ClaimsTheRectangle | lib/Keypad/src/Tca8418.cpp:25-60 | configuration claims exactly the rows and columns asked for and enables both overflow bits |
| Scanner.Tca8418.Begin | lib/Keypad/src/Tca8418.cpp:25-60 | the writes go out in order and stop at the first one refused |
| Primitives.CtEqual | lib/EncryptedStore/src/encrypted_store.cpp:11-15 | the OR-of-XOR comparison is equality |
| Primitives.CtrUndoes | lib/EncryptedStore/src/encrypted_store.cpp:66-112 | the keystream cipher undoes itself |
| Pbkdf2.Pbkdf2Block | lib/Password/src/password.cpp:21-43 | for every count the in-place accumulation is the exclusive or of U_1 to U_c, and the rest of the buffer is left alone |
| Pbkdf2.Pbkdf2_64 | lib/Password/src/password.cpp:50-55 | the 64-byte key is the derived key of section 5.2 of RFC 8018 for that length |
| Pbkdf2.OctetsValue | lib/Password/src/password.cpp:28-31 | the block number's four octets are its digits in base 256, most significant first |
| Pbkdf2.TwoRounds | lib/Password/src/password.cpp:21-55 | of two rounds: the first is over the salt and 00 00 00 01 or 02, the second over the first, and each byte of the key is their exclusive or |
| SealedBlob.UnsealInvertsSeal | lib/EncryptedStore/src/encrypted_store.cpp:54-113 | what was sealed opens to what went in |
| SealedBlob.SealInvertsUnseal | lib/EncryptedStore/src/encrypted_store.cpp:54-113 | an authentic blob is the sealing of what it opens to |
| EncryptedStore.Encrypt | lib/EncryptedStore/src/encrypted_store.cpp:54-83 | the buffer assembled by offset is version, IV, ciphertext and MAC; out of memory nothing is written |
| EncryptedStore.Decrypt | lib/EncryptedStore/src/encrypted_store.cpp:85-113 | accepts exactly when long enough and the MAC over everything before it matches; a refusal leaves the output alone |
| EncryptedStore.Read | lib/EncryptedStore/src/encrypted_store.cpp:122-133 | the same with an exact length, into the caller's buffer |
| EncryptedStore.DecryptInvertsEncrypt | lib/EncryptedStore/src/encrypted_store.cpp:54-113 | the round trip for any identity, IV and text, at 49 bytes of overhead |
| EncryptedStore.BlobOnDisk | lib/EncryptedStore/src/encrypted_store.cpp:54-83 | byte by byte: version 1, the IV, the text under the first 32 key bytes, the MAC of all before under the last 32 |
| PasswordFile.Protect | lib/Password/src/password.cpp:69-117 | the file is version, salt, IV, ciphertext and MAC over all of them; success is reported exactly when the filesystem wrote all of it |
| PasswordFile.Open | lib/Password/src/password.cpp:119-160 | accepts exactly the right length with the right MAC; a refusal leaves the buffer alone |
| PasswordFile.OpenInvertsProtect | lib/Password/src/password.cpp:69-160 | the round trip for any password, salt, IV and text |
| PasswordFile.FileOnDisk | lib/Password/src/password.cpp:69-117 | byte by byte: version 1, the salt, the IV, the text under the first 32 bytes derived in 100000 rounds, the MAC of all before under the last 32 |
| Decimal.DecSays | src/main.cpp:530-534 | the printed digits say the number |
| ReplyText.ReadingsNeverTruncate | src/main.cpp:509-526 | neither reading outgrows its buffer, whatever the radio reported |
| ReplyText.BodyFitsOnePacket | src/main.cpp:181-198 | for every counter, uptime and reading the body is at most 46 bytes, within the packet budget and uncut |
| ReplyText.BodyBoundIsTight | src/main.cpp:507-538 | and 46 is reached |
| ReplyText.BodyReadsBack | src/main.cpp:507-538 | split at its spaces the body reads back as the counter, the whole seconds, the dBm held to -200..20, the tenths of a dB held to -300..300 or no readings, and the hash's first eight characters |
| ReplyText.BuildDiagBody | src/main.cpp:507-538 | the text composed through its two buffers is that body |

## Left out

- The Micron parser, fonts and the glyph binary searches: arbitrary functions here; micron-cpp is not part of this model.
- Missing-glyph counts, anchors and the diagnostic counters of the panel decoder.
- `draw_text_big` and `draw_text_bold`: a glyph's ink is an arbitrary set of offsets in `FramePicture`.
- The renderer's class records its display calls in order instead of holding the display; `FramePicture.FrameShowsLog` says what the driver and the panel make of them.
- The renderer's fields are grouped in one record `Pen`; its sixteen-bit `_y` is kept unwrapped and cut by `Wrap16` where it is read.
- LayoutHeights.FramesAlikeIff: the page fits sixteen bits; a taller one wraps to its own top, where no offset is beyond it.
- LayoutUniform.RowsAreUniformAndDisjoint: the page's rows fit sixteen bits; beyond that a row wraps to the top of the page and is drawn over it.
- LayoutRects.EveryFillEndsIff: runs are at most 5000 bytes, so that the width of their leading spaces does not wrap; a text field is at most 255 cells wide, as its type has it.
- LayoutLinks.LinkBoxIff: captions are at most 5000 bytes, for the same reason.
- Frames.FramesIndependentIff: the first row is on screen and the inline bold face has the letter a; with no bold glyph at all, bold left behind shows nowhere.
- Frames.LinkFirstIff: the first row is on screen, as it is at scroll offset zero; for a row out of sight there is nothing to compare.
- FramePicture.ScrollingMovesThePicture: the page's rows fit sixteen bits; a row clipped at the window's edge is not drawn at all, so a pixel it reaches is excluded.
- PageComposer.ComposePage: leaves out the display's fill_white and flush around the loop, which `FramePicture.FrameShowsLog` adds; on a truncated sequence in a run or a cell the source reads past it, and the model asks that there is none.
- PageComposer.HandleAll: a row or an end outside a table, which the parser does not report, would work on what an earlier table left; the model starts every page with no table open, and leaves out the depth a table's beginning and rows set, which its end sets again.
- ScaledText.ScaledTextIsBlowUpIff: says it for all strings of one length together, since a string whose last glyphs are blank can survive a wrap.
- SplitFrames.DeliversWhatArrived: one sender; frames lost between reading and re-arming the radio count as dropped.
- The radio task's other work, its serial output and exceptions; the radio's own transmit path beyond the frames it sends.
- IdentityVault.Device.VaultOpen: asks for a vault file, as its caller checks; a vault is the code it opens with or damaged, and the derivation behind it is in `PasswordFile`.
- EncryptedStore.Encrypt: an empty plaintext is accepted here; in the source it depends on what `malloc(0)` returns.
- Secrecy and forgery resistance of any kind: the primitives are uninterpreted.
- Float rounding in the reply: the rounded readings are arbitrary integers.
