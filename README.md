# Mega Drive test project: dialogue engine, input, menu and test screens in Dafny

This project models the game logic of a Sega Mega Drive test program written in C against
SGDK. Its centre is the dialogue engine, which pages a NUL-terminated message into at most four
line buffers of 40 characters. The engine skips leading spaces, word-wraps at the last space and
keeps a read cursor that moves forward from page to page. Around it the project models:

- the joypad edge detector;
- the main menu;
- the fatal-error screen and its u16-to-decimal conversion;
- the palette-cycling, scrolling, sprite and tilemap tests;
- the frame loop of `main.c`, with its state dispatch and the timed fade-test sub-states.

The files follow the C modules:

| file | models |
|---|---|
| `wrappers.dfy` | `Option`, for NULL pointers |
| `cstrings.dfy` | `strlen`, `strcpy`, `strcat`, `strncat`, `strncpy` on `array<char>`; `CStr` reads a buffer up to its terminator |
| `pagination.dfy` | `_dialogue_engine_prepare_page` as pure functions; the word-wrap, reassembly and paging lemmas |
| `dialogue_engine.dfy` | `current_dialogue` as the class `Dialogue`; its loops, each proved to compute the pure page |
| `error_handler.dfy` | `_int_to_string_decimal` and `error_handler_display_error` |
| `input.dfy` | `input.c` as the class `InputState` |
| `menu.dfy` | `menu.c`; the selection logic as a function, the statics as the class `MenuState` |
| `palette_cycle.dfy` | `test_palette_cycle.c`; palette 0 as an `array<bv16>` |
| `scrolling.dfy` | `test_scrolling.c`; the two scroll registers as fields |
| `graphics.dfy` | `update_sprites_example`, `display_simple_tilemap` and `simple_map`; plane A as an `array2<int>` |
| `game.dfy` | `main.c`; the clock readings and SGDK_TIMER_NORMAL_DIV as parameters |

Conventions:

- A C string is a Dafny `string` with no NUL in it.
- A pointer into a message is an index. `*p == '\0'` is `p == |text|`. `CharAt` reads a NUL past the end.
- A NULL message is `None`.
- The halt of the error handler is the result `Halted(screen)`, carrying the screen it shows.
- Button bits (`BUTTON_UP` = 0x0001 … `BUTTON_START` = 0x0080) come from SGDK's `joy.h`, which is not part of this model.
- `RGB24_TO_VDPCOLOR` also comes from SGDK: it keeps the top three bits of each channel, packed as 0BGR.

Where the header comments and the code disagree, the model follows the code:

- Leading spaces are skipped on every line of a page except its first (line 0), on every page, not only on the first page (`DialogueEngine`, `Pagination.LaterLinesSkipLeadingSpaces`).
- A message of spaces only is not collapsed. Line 0 is never skipped, so the first page is one line of spaces and the dialogue stays active (`Pagination.SpacesOnlyMessage`).
- `dialogue_engine_update` is documented as returning "still active". It returns whether this frame changed the dialogue, that is whether there was a confirm press while active (`DialogueEngine.Dialogue.Update`).
- Every page after the first uses the fixed 28 x 4 content box, whatever size `dialogue_engine_start_message` was given (`Pagination.PagesFrom`, `Pagination.LettersInNarrowBox`).
- The deactivation inside the paging branch of `dialogue_engine_update` can never fire. A page prepared from a cursor before the terminator always has a line or a further page. The model proves this at that point instead of modelling the assignment.
- The menu lists "5. Scrolling Demo" and "6. XGM Music Test". `update_menu_state` has no case for them, so choosing either goes back to a freshly initialised menu with the cursor on the first entry (`Game.UnlistedEntriesStayInMenu`, `Game.MainLoop.UpdateMenuState`).
- Degenerate boxes are modelled rather than excluded:
  - width 0 gives empty lines and no progress;
  - height 0 gives an active dialogue with no line on screen.
- Only `width < 40` is required, because the terminator is written at `lines[i][width]`.

## Model

| member | source | states |
|---|---|---|
| CStrings.StrLen | megadrive_test_project/src/error_handler.c:67 | the length is that of the C string in the buffer, and the terminator is at that index |
| CStrings.StrCpy | megadrive_test_project/src/error_handler.c:53 | the buffer holds `src` and a terminator, the rest unchanged; the C string read back is `src` |
| CStrings.StrCat | megadrive_test_project/src/menu.c:95 | the C string becomes the old one followed by `src`; the bytes after the new terminator are unchanged |
| CStrings.StrNCat | megadrive_test_project/src/error_handler.c:67 | the C string becomes the old one followed by at most `count` characters of `src` (all of it when it is short enough) |
| CStrings.StrNCpy | megadrive_test_project/src/dialogue_engine.c:126 | the first `count` bytes are the source characters, NUL past its end; the rest is unchanged |
| Pagination.ScanLength | megadrive_test_project/src/dialogue_engine.c:99-115 | the scan length is at most the width, has no terminator or newline inside, and is short of the width only at a terminator or newline |
| Pagination.ScanLengthIs | megadrive_test_project/src/dialogue_engine.c:99-115 | the scan length is the only count with that description |
| Pagination.LastSpace | megadrive_test_project/src/dialogue_engine.c:110-112 | the last space among the scanned characters, with no space after it, or none when there is no space at all |
| Pagination.LineLength | megadrive_test_project/src/dialogue_engine.c:117-124 | a line is never longer than the scan and the width; a line starting on a word character is non-empty |
| Pagination.WordWrap | megadrive_test_project/src/dialogue_engine.c:117-124 | a line is cut short only when it is full and followed by a word character, and then at its last space, which is past offset 0; otherwise the scan stopped early, a natural break follows, or there is no usable space |
| Pagination.SkipSpaces | megadrive_test_project/src/dialogue_engine.c:84-88 | the skip stops at the first non-space or the terminator, and everything skipped is a space |
| Pagination.FillLines | megadrive_test_project/src/dialogue_engine.c:82-139 | the line loop moves the cursor forward, never past the terminator; it fills at most the slots left; every line lies between the old and new cursor, is at most `width` long and holds no newline |
| Pagination.FillLinesLine | megadrive_test_project/src/dialogue_engine.c:126-138 | one round of the line loop copies the line, steps over one separator and stops at the terminator |
| Pagination.PreparePage | megadrive_test_project/src/dialogue_engine.c:67-142 | at most min(height, 4) lines, each within the text and at most `width` long; a cursor at the terminator gives an empty page; otherwise line 0 starts at the cursor and, with width and height at least 1, the cursor strictly advances |
| Pagination.PageTiles | megadrive_test_project/src/dialogue_engine.c:82-141 | the text between the old and new cursor is the page's lines, in order, with only gaps (an optional newline, then spaces) dropped |
| Pagination.LaterLinesSkipLeadingSpaces | megadrive_test_project/src/dialogue_engine.c:84-88 | every line of a page after line 0 starts on a character that is not a space |
| Pagination.PageEndsAtSeparator | megadrive_test_project/src/dialogue_engine.c:130-141 | when text remains, the next page starts right after the last line, or one space or newline after it |
| Pagination.PagesFrom | megadrive_test_project/src/dialogue_engine.c:170-181 | the later pages, one per confirm press at 28 x 4, number at most the characters left, and the last reaches the terminator |
| Pagination.TilesConcat | megadrive_test_project/src/dialogue_engine.c:140 | the part of the text covered by one page and the part covered by the pages after it join into one covering |
| Pagination.PagesFromTile | megadrive_test_project/src/dialogue_engine.c:170-181 | the lines of all later pages, with gaps put back, cover the text from the cursor to the terminator |
| Pagination.MessageReassembles | megadrive_test_project/src/dialogue_engine.c:144-181 | across all pages of a message, the lines in order with the dropped gaps put back give exactly the message |
| Pagination.SpacesOnlyMessage | megadrive_test_project/src/dialogue_engine.c:84-93 | a spaces-only message gives one line of min(width, length) spaces and consumes the whole message, when the box has two lines or the message is at most one space longer than the width |
| Pagination.HelloPage | megadrive_test_project/src/dialogue_engine.c:11-12 | "Hello Dialogue Box!" in the 28 x 4 box is one line of 19 characters ending at the terminator |
| Pagination.HelloFitsOnePage | megadrive_test_project/src/dialogue_engine.c:144-155 | that message is a single page |
| Pagination.OnePage | megadrive_test_project/src/dialogue_engine.c:140-141 | a first page reaching the terminator is the whole message |
| Pagination.TwoPages | megadrive_test_project/src/dialogue_engine.c:173-180 | a second page at 28 x 4 reaching the terminator makes a two-page message |
| Pagination.LettersInNarrowBox | megadrive_test_project/src/dialogue_engine.c:170-181 | "A B C D E F G H" opened at 3 x 1 shows "A B", then the rest "C D E F G H" at 28 x 4 |
| Pagination.LettersLines | megadrive_test_project/src/dialogue_engine.c:126-127 | the two lines of that message as text |
| DialogueEngine.MeasureLine | megadrive_test_project/src/dialogue_engine.c:95-124 | the scan-and-wrap loop returns the line length `LineLength` and the end pointer, within the width and the text |
| DialogueEngine.SkipLeadingSpaces | megadrive_test_project/src/dialogue_engine.c:85-87 | the pointer-walking loop stops where `SkipSpaces` does |
| DialogueEngine.CopySegment | megadrive_test_project/src/dialogue_engine.c:126-127 | strncpy plus the terminator leave exactly the line's substring in the buffer |
| DialogueEngine.CopiedGrow | megadrive_test_project/src/dialogue_engine.c:126-128 | copying one more line fills the next buffer and keeps the earlier ones |
| DialogueEngine.LoopFromFill | megadrive_test_project/src/dialogue_engine.c:82-139 | the imperative line loop computes the page of `FillLines` |
| DialogueEngine.LoopSkip | megadrive_test_project/src/dialogue_engine.c:82-93 | the loop ends with no line added when the slots run out or only spaces remain |
| DialogueEngine.LoopLine | megadrive_test_project/src/dialogue_engine.c:95-138 | a round that copies a line continues exactly as the loop from the next pointer |
| DialogueEngine.PageWithin | megadrive_test_project/src/dialogue_engine.c:82 | the lines of a page lie within the message, and there are at most four |
| DialogueEngine.Dialogue.constructor | megadrive_test_project/src/dialogue_engine.c:5 | the zeroed static: no message, inactive, buffers empty |
| DialogueEngine.Dialogue.Init | megadrive_test_project/src/dialogue_engine.c:24-27 | every byte of every buffer is NUL, no message, cursor 0, inactive, no line, no indicator |
| DialogueEngine.Dialogue.ClearLines | megadrive_test_project/src/dialogue_engine.c:69-71 | all four buffers become empty strings |
| DialogueEngine.Dialogue.CopyLine | megadrive_test_project/src/dialogue_engine.c:126-127 | buffer `idx` holds the line's substring, the other buffers are unchanged |
| DialogueEngine.Dialogue.CopyNextLine | megadrive_test_project/src/dialogue_engine.c:95-133 | buffer `idx` gets the next line, and the pointer returned is past it and its separator |
| DialogueEngine.Dialogue.LineRound | megadrive_test_project/src/dialogue_engine.c:83-138 | one round of the line loop keeps the buffers equal to the lines copied so far and the rest of the loop equal to the pure loop |
| DialogueEngine.Dialogue.FillPage | megadrive_test_project/src/dialogue_engine.c:82-139 | the loop leaves the buffers, line count and pointer showing `Pagination.PreparePage` of the message |
| DialogueEngine.Dialogue.ShowsPage | megadrive_test_project/src/dialogue_engine.c:140-141 | buffers holding a page's lines, with the cursor and indicator set from it, show that page |
| DialogueEngine.Dialogue.PreparePage | megadrive_test_project/src/dialogue_engine.c:67-142 | with no text left: inactive, cleared, cursor unchanged; otherwise the state shows the pure page from the old cursor, the indicator says whether text remains, and there is a line or a further page |
| DialogueEngine.Dialogue.ShowNextPage | megadrive_test_project/src/dialogue_engine.c:80-141 | from cleared buffers, the state shows the page from the cursor |
| DialogueEngine.Dialogue.StartMessage | megadrive_test_project/src/dialogue_engine.c:144-156 | a NULL or empty message leaves the dialogue inactive and cleared; any other is active and shows its first page, with at least one line when the height is at least 1 |
| DialogueEngine.Dialogue.Update | megadrive_test_project/src/dialogue_engine.c:170-190 | true exactly on a confirm press while active; with no change nothing moves; with more text the next page is shown at 28 x 4; on the last page the dialogue ends with its lines left in place and no paging indicator; every change brings the end strictly nearer |
| DialogueEngine.Dialogue.IsActive | megadrive_test_project/src/dialogue_engine.c:192-194 | the active flag, and an active dialogue has a message and a line on screen or a page to come |
| ErrorHandler.DigitRoundTrip | megadrive_test_project/src/error_handler.c:19 | a digit character reads back as its value |
| ErrorHandler.DigitsRoundTrip | megadrive_test_project/src/error_handler.c:18-27 | the digits, read back in base 10, give the value |
| ErrorHandler.DecimalRoundTrip | megadrive_test_project/src/error_handler.c:7-28 | the decimal form, including "0", reads back as the value |
| ErrorHandler.DigitsLength | megadrive_test_project/src/error_handler.c:5-6 | a value has at most k digits exactly when it is below 10^k |
| ErrorHandler.DecimalShape | megadrive_test_project/src/error_handler.c:8-27 | a u16 gives one to five characters, and only 0 starts with '0' |
| ErrorHandler.LeadingDigit | megadrive_test_project/src/error_handler.c:18-27 | a non-zero value has no leading zero |
| ErrorHandler.DigitsSplit | megadrive_test_project/src/error_handler.c:18-21 | one division round moves the lowest remaining digit to the produced ones |
| ErrorHandler.IntToStringDecimal | megadrive_test_project/src/error_handler.c:7-28 | the buffer starts with the decimal form of the value and a terminator, and the rest is unchanged |
| ErrorHandler.WriteZero | megadrive_test_project/src/error_handler.c:8-11 | "0" and a terminator |
| ErrorHandler.LowDigitsFirst | megadrive_test_project/src/error_handler.c:14-21 | the division loop leaves the digits least significant first, fewer than six of them, whose reversal is the decimal form |
| ErrorHandler.CopyReversed | megadrive_test_project/src/error_handler.c:24-27 | the buffer holds the produced digits reversed and a terminator |
| ErrorHandler.ErrorScreenFits | megadrive_test_project/src/error_handler.c:51-67 | with a module name of at most 31 and a function name of at most 33 characters, every line fits the 40-byte buffer |
| ErrorHandler.MessageLine | megadrive_test_project/src/error_handler.c:65-67 | the MSG line is "MSG: " and the message cut to 34 characters, 39 in all when cut |
| ErrorHandler.DisplayError | megadrive_test_project/src/error_handler.c:31-69 | the lines built in `line_buf` and drawn are the title, MODULE, FUNC, LINE and MSG at rows 2, 4, 5, 6 and 8 |
| ErrorHandler.PrefixedLine | megadrive_test_project/src/error_handler.c:53-57 | strcpy then strcat give prefix and name |
| ErrorHandler.LineNumberLine | megadrive_test_project/src/error_handler.c:59-62 | the LINE line holds the decimal form of the line number |
| ErrorHandler.MessageLineInto | megadrive_test_project/src/error_handler.c:65-67 | strncat bounded by the room left gives the cut message |
| Input.PressedIsDown | megadrive_test_project/src/input.c:46-47 | a fresh press is a held button |
| Input.PressedNotReleased | megadrive_test_project/src/input.c:46-56 | a mask is never pressed and released in the same frame |
| Input.SteadyPadHasNoEdges | megadrive_test_project/src/input.c:46-56 | an unchanged pad word shows neither a press nor a release |
| Input.PressedUnion | megadrive_test_project/src/input.c:46-47 | a fresh press of a combined mask (Start or A) is a fresh press of one part, with neither part down before |
| Input.MaskUnion | megadrive_test_project/src/input.c:38 | testing a combined mask tests each part |
| Input.EmptyMaskNeverDown | megadrive_test_project/src/input.c:38 | an empty mask is never held |
| Input.InputState.constructor | megadrive_test_project/src/input.c:9-10 | both words 0, not initialised |
| Input.InputState.Init | megadrive_test_project/src/input.c:15-21 | both words 0, initialised |
| Input.InputState.Update | megadrive_test_project/src/input.c:23-31 | before init: the error screen for line 25 and nothing changed; after: the old word becomes the previous one and the new word the current one |
| Input.InputState.IsHeld | megadrive_test_project/src/input.c:33-39 | true exactly when a button of the mask is down; the error screen for line 35 before init |
| Input.InputState.IsJustPressed | megadrive_test_project/src/input.c:41-48 | true exactly on a fresh press; the error screen for line 43 before init |
| Input.InputState.IsJustReleased | megadrive_test_project/src/input.c:50-57 | true exactly on a release; the error screen for line 52 before init |
| Input.InputState.CurrentState | megadrive_test_project/src/input.c:59-65 | the current word; the error screen for line 61 before init |
| Input.PressReportedOnce | megadrive_test_project/src/input.c:29-30 | two updates with the same word leave no fresh press |
| Menu.Next | megadrive_test_project/src/menu.c:47-76 | the selection stays one of the eight entries, and a pending action is an entry |
| Menu.UpWraps | megadrive_test_project/src/menu.c:57-62 | Up moves one entry back, from the first to the last |
| Menu.DownWraps | megadrive_test_project/src/menu.c:63-68 | Down moves one entry on, from the last to the first |
| Menu.UpDownInverse | megadrive_test_project/src/menu.c:57-68 | Up then Down, and Down then Up, bring the cursor back |
| Menu.ConfirmLatches | megadrive_test_project/src/menu.c:69-70 | an action is latched exactly when only confirm is pressed, and it is the selected entry |
| Menu.PendingIgnoresInput | megadrive_test_project/src/menu.c:48-52 | while an action is pending no input changes anything |
| Menu.OneActionPerCall | megadrive_test_project/src/menu.c:57-73 | one call does at most one of: nothing, up, down, confirm |
| Menu.MenuLine | megadrive_test_project/src/menu.c:89-95 | a line starts with "> " exactly for the selected entry and continues with the entry's text |
| Menu.OneCursorLine | megadrive_test_project/src/menu.c:89-98 | exactly one entry line of the menu carries the cursor |
| Menu.MenuLinesFit | megadrive_test_project/src/menu.c:87-95 | every entry line fits the 40-character buffer with its terminator |
| Menu.MenuLineAsWritten | megadrive_test_project/src/menu.c:6-13 | an entry line exists exactly when the entry is initialised |
| Menu.NullEntriesDrawn | megadrive_test_project/src/menu.c:89-95 | entries 6 and 7 are NULL whatever the selection; the first six agree with `MenuLine` |
| Menu.MenuState.constructor | megadrive_test_project/src/menu.c:15-16 | first entry selected, no action |
| Menu.MenuState.Init | megadrive_test_project/src/menu.c:26-45 | first entry selected, no action, the menu drawn |
| Menu.MenuState.HandleInput | megadrive_test_project/src/menu.c:47-76 | the new state is `Next` of the old; the menu is redrawn exactly on a cursor move |
| Menu.MenuState.Draw | megadrive_test_project/src/menu.c:78-101 | the eight entry lines from row 8 and the help line at row 18 |
| Menu.MenuState.EntryLine | megadrive_test_project/src/menu.c:90-95 | strcpy of the cursor mark and strcat of the entry give the entry line |
| Menu.MenuState.SelectedActionId | megadrive_test_project/src/menu.c:103-105 | the pending action, -1 or an entry index |
| Menu.MenuState.ResetActionId | megadrive_test_project/src/menu.c:107-109 | no action pending, the selection kept |
| PaletteCycle.ColourWords | megadrive_test_project/src/test_palette_cycle.c:14-18 | red, green and blue are 0x00E, 0x0E0 and 0xE00, and white is 0xEEE |
| PaletteCycle.Tick | megadrive_test_project/src/test_palette_cycle.c:72-85 | the step stays below 3 and the timer below 15 |
| PaletteCycle.TickWraps | megadrive_test_project/src/test_palette_cycle.c:73-76 | a frame wraps exactly when the timer was at 14, and then the step advances modulo 3 |
| PaletteCycle.TicksAdd | megadrive_test_project/src/test_palette_cycle.c:72-85 | a + b frames are a frames followed by b frames |
| PaletteCycle.TicksWithinPeriod | megadrive_test_project/src/test_palette_cycle.c:73-75 | within a period the timer counts and the step holds |
| PaletteCycle.OnePeriod | megadrive_test_project/src/test_palette_cycle.c:73-76 | 15 frames advance the step by one |
| PaletteCycle.StepAfterPeriods | megadrive_test_project/src/test_palette_cycle.c:68-76 | 15k frames after init the step is k mod 3 and the timer 0 |
| PaletteCycle.RotationIsPermutation | megadrive_test_project/src/test_palette_cycle.c:82-84 | each rotation shows the three colours once each, all distinct |
| PaletteCycle.FirstRotation | megadrive_test_project/src/test_palette_cycle.c:36-38 | the colours init writes are the rotation for step 0 |
| PaletteCycle.InitialPaletteKeepsOthers | megadrive_test_project/src/test_palette_cycle.c:32-41 | the palette init builds has the cycle colours in slots 1-3, white in 15, and the saved colour everywhere else |
| PaletteCycle.CopyPalette | megadrive_test_project/src/test_palette_cycle.c:30-33 | the 16 colour words copied |
| PaletteCycle.PaletteCycleTest.constructor | megadrive_test_project/src/test_palette_cycle.c:20-22 | step 0, timer 0 |
| PaletteCycle.PaletteCycleTest.Init | megadrive_test_project/src/test_palette_cycle.c:25-70 | the old palette saved, the initial palette shown, step and timer 0 |
| PaletteCycle.PaletteCycleTest.Update | megadrive_test_project/src/test_palette_cycle.c:72-87 | the state ticks; on a wrap slots 1-3 take the new rotation, otherwise the palette is unchanged |
| PaletteCycle.PaletteCycleTest.OnExit | megadrive_test_project/src/test_palette_cycle.c:89-91 | the saved palette is restored |
| PaletteCycle.Run | megadrive_test_project/src/test_palette_cycle.c:25-91 | init, any number of frames and exit leave palette 0 as it was; after 15k frames the step is k mod 3 |
| Scrolling.ScrollLimits | megadrive_test_project/src/test_scrolling.c:16-17 | the scroll limits are 192 and 32 |
| Scrolling.SingleDirection | megadrive_test_project/src/test_scrolling.c:68-83 | one direction moves two pixels, clamped at the edge; no direction leaves the axis |
| Scrolling.StepAxisBounds | megadrive_test_project/src/test_scrolling.c:68-83 | an axis in range stays in range and moves at most two pixels |
| Scrolling.BothDirections | megadrive_test_project/src/test_scrolling.c:68-75 | both directions cancel from 2 on, and from 0 or 1 end at 2 |
| Scrolling.ScrollingTest.constructor | megadrive_test_project/src/test_scrolling.c:7-8 | camera and registers at 0 |
| Scrolling.ScrollingTest.Init | megadrive_test_project/src/test_scrolling.c:57-60 | camera and registers at 0 |
| Scrolling.ScrollingTest.Update | megadrive_test_project/src/test_scrolling.c:67-86 | each axis steps and clamps, stays within 0..192 and 0..32, and the registers take the new position |
| Scrolling.ScrollingTest.OnExit | megadrive_test_project/src/test_scrolling.c:107-108 | registers 0, camera kept |
| Graphics.SimpleMapShape | megadrive_test_project/src/graphics.c:33-44 | the map is 10 rows of 20 cells |
| Graphics.BorderIsSolid | megadrive_test_project/src/graphics.c:33-44 | every edge cell holds tile 1 |
| Graphics.DisplayedBorder | megadrive_test_project/src/graphics.c:89-107 | after display the whole frame of the map shows the first user tile plus 1 |
| Graphics.ClearPlane | megadrive_test_project/src/graphics.c:90 | every cell of the plane is 0 |
| Graphics.DrawRow | megadrive_test_project/src/graphics.c:93-106 | each non-zero cell of the row is written with its tile word, zero cells and other rows are untouched |
| Graphics.DisplaySimpleTilemap | megadrive_test_project/src/graphics.c:89-108 | the plane holds the map's tile words at the map's cells and 0 everywhere else |
| Graphics.MoveAxisBounds | megadrive_test_project/src/graphics.c:161-179 | from the screen a frame keeps the sprite on the screen and moves each axis at most two pixels |
| Graphics.MoveAxisClamps | megadrive_test_project/src/graphics.c:176-179 | any position is back on the screen after one frame |
| Graphics.OppositeDirectionsCancel | megadrive_test_project/src/graphics.c:161-179 | both directions, or none, leave an on-screen axis where it was |
| Graphics.SingleDirection | megadrive_test_project/src/graphics.c:161-179 | one direction moves two pixels, stopping at the edge |
| Graphics.Player.constructor | megadrive_test_project/src/graphics.c:50-52 | the start position (100, 100), on the screen |
| Graphics.Player.Update | megadrive_test_project/src/graphics.c:159-188 | each axis moves and clamps to 0..304 and 0..208, the sprite follows, and the sound starts exactly on an A press |
| Game.ElapsedAcrossWrap | megadrive_test_project/src/main.c:301 | the unsigned elapsed time is the plain difference, or the difference plus 2^32 across a wrap |
| Game.Dispatch | megadrive_test_project/src/main.c:261-267 | a test starts exactly for entries 0-3 |
| Game.UnlistedEntriesStayInMenu | megadrive_test_project/src/main.c:261-267 | entries 4-7, among them the scrolling and music tests, lead back to the menu |
| Game.FadeInitMoves | megadrive_test_project/src/main.c:295-299 | the start always moves to the first screen and records the clock |
| Game.ShowInitialWaitsTwoSeconds | megadrive_test_project/src/main.c:300-308 | the first screen fades out exactly when more than 2 seconds have passed, restarting the timer at the clock read after the blocking fade-out; otherwise nothing changes |
| Game.BlackWaitCountsFromFadeEnd | megadrive_test_project/src/main.c:301-311 | after the fade-out fires, the next frame finishes the test exactly when more than 1 second has passed since the clock reading taken after the fade, not since the frame that started it |
| Game.WaitBlackWaitsOneSecond | megadrive_test_project/src/main.c:309-316 | the black screen fades in exactly when more than 1 second has passed; otherwise nothing changes |
| Game.DoneIsAbsorbing | megadrive_test_project/src/main.c:317-321 | the end is never left |
| Game.FadeStepAdvancesByOne | megadrive_test_project/src/main.c:294-322 | a step never enters a fading state and moves at most one sub-state on |
| Game.FadeRunProgress | megadrive_test_project/src/main.c:293-326 | over any run of frames the fading states are never entered and the test moves on at most one sub-state per frame |
| Game.FadeTestPaletteColours | megadrive_test_project/src/main.c:205-209 | slots 1-3 are red, green and blue, the others grey 0x222 |
| Game.MainLoop.constructor | megadrive_test_project/src/main.c:360-369 | the loading screen first, the menu at its initial state |
| Game.MainLoop.GoToMenuState | megadrive_test_project/src/main.c:124-130 | the menu state, with the menu initialised |
| Game.MainLoop.ReturnToMenu | megadrive_test_project/src/main.c:141-148 | the menu state, with the menu initialised |
| Game.MainLoop.InitFadesTestState | megadrive_test_project/src/main.c:200-223 | the test palette built, the fade test at its start |
| Game.MainLoop.InitTilemapDisplayState | megadrive_test_project/src/main.c:180-187 | the map shown on plane A, the tilemap state |
| Game.MainLoop.UpdateMenuState | megadrive_test_project/src/main.c:252-269 | no action: the state is unchanged; a chosen entry is reset and starts its test, or re-initialises the menu |
| Game.MainLoop.StartTest | megadrive_test_project/src/main.c:261-267 | the state is the dispatch of the entry, with the chosen test set up |
| Game.MainLoop.UpdateFadesTestState | megadrive_test_project/src/main.c:293-326 | the sub-state, timer and effect are `FadeStep` of the old ones, with the frame's clock and the clock read after a fade-out; Start returns to the menu |
| Game.MainLoop.Frame | megadrive_test_project/src/main.c:372-405 | the loading screen ends in the menu; a Start press in any test returns to the menu, none keeps the test; the menu dispatches its chosen entry; the sprite moves as `MoveAxis` says; the fade test's sub-state and timer step as `FadeStep` says |

## Findings

| source | as written | input that shows it | evidently intended | confidence | as-written member | corrected member |
|---|---|---|---|---|---|---|
| megadrive_test_project/src/menu.c:6-13 | `menu_items` has eight slots and six initialisers, and `menu_draw` passes every slot to `strcat`, so entries 6 and 7 are NULL | any call of `menu_draw`, whatever the selection | eight drawable entries, the last two empty | not executed | Menu.NullEntriesDrawn | Menu.MenuLinesFit |

The rest of the model draws the corrected entries (`Menu.Items`, `Menu.MenuState.Draw`).

## Left out

- Everything the VDP does is left out: planes, tiles, sprites, palettes written through SGDK calls, text drawing and clearing, and scroll registers beyond the two fields of `Scrolling.ScrollingTest`. This includes `dialogue_engine_draw_box`, `dialogue_engine_draw_current_page` and the title truncation inside the box.
- The typewriter fields `current_char_in_line` and `current_line_in_page` are never used.
- The stores to `needs_paging_indicator` inside the line loop are overwritten after the loop, so only the final value is modelled.
- `dialogue_engine_draw_text_line_inside_box` is not declared by the engine's header and is not part of this model.
- DialogueEngine.Dialogue.PreparePage: requires `width < 40`, because the terminator is written at `lines[i][width]` and nothing clamps the width.
- ErrorHandler.LowDigitsFirst: the loop invariant relates the quotient left to the digits still to produce, not to `value / 10^k` directly.
- ErrorHandler.DisplayError: requires a module name of at most 31 and a function name of at most 33 characters, because the unbounded `strcat` into the 40-byte `line_buf` would overflow otherwise.
- The halt of the error handler is the returned screen: `SYS_disableInts` and the endless VBlank loop are not modelled, nor is the screen and palette set-up.
- `JOY_readJoypad` is the parameter of `Input.InputState.Update`.
- `input_is_button_pressed`, `input_get_joy1_state` and `input_is_dpad_*_pressed` are called but not declared by `input.h`. Their results are boolean parameters, and a "pressed" button is a fresh press.
- `show_loading_screen` busy-waits on the clock for three seconds or a Start press. Its wait is not modelled; a frame in that state ends in the menu, as the function does.
- The fade transitions, `pcm_player_play`, the sprite animation and `SPR_update` are foreign calls. Fades are reported as `FadeEffect` values. A fade-out blocks until it has finished, so the clock `main.c` reads after it is a second parameter, `after`, of `Game.FadeStep` and the methods that call it. The sound as the `ping` result of `Graphics.Player.Update`.
- `setup_sprites`, `load_simple_tileset`, the sprite-demo colour and fade set-up, and the input display are foreign calls too. Test screens that only draw are left out for the same reason.
- `test_fades.c` repeats the fade sub-state machine of `main.c` and is not called; it is modelled once.
- The palette-cycle, scrolling and dialogue tests are not reached from the frame loop of `main.c`. Their modules are modelled on their own.
- `sprintf` of the scroll coordinates is a library call used only for display.
- Game.MainLoop.Frame: states the new game state, the sprite position and the fade sub-state and timer. It does not restate every field the called methods keep.
- Integer widths: positions, timers and indices stay far inside their C types (s16, u16, u8), so the model uses unbounded integers. The one width that matters, the u32 clock difference, is computed modulo 2^32 (`Game.Elapsed`).
- SGDK's TILE_USER_INDEX and SGDK_TIMER_NORMAL_DIV are not part of this model. They are the parameters `userIndex` and `div`.
