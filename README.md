# Pac-Man collider engine and game bookkeeping

A Dafny model of the logic at the core of `main.c`, a small SDL Pac-Man game.
Pac-Man runs through a tile level and meets two ghosts, Blinky and Inky.
He talks through speech boxes and records his voice with an on-screen
recorder button.

The model covers these parts:

- **Geometry**:
  - the axis-aligned box test, which compares open intervals;
  - the scan over every pair of two sub-box lists;
  - the circle tests;
  - the squared distance.
- **Colliders**:
  - a sprite's collider shapes as one value: the outer box, the ordered sub-boxes and the circle;
  - how those shapes move together;
  - the level-bounds test and the sprite-against-sprite test.
- **Tiles**:
  - `loadTile`;
  - `loadTileMap` as a parser of the map file's bytes, with a cursor that wraps to the next row at the right edge of the level;
  - the search for the first solid tile in the way;
  - the choice of tiles to draw for a camera.
- **Sprites**: a `Sprite` class whose methods update it in place.
  - Clip bookkeeping: `loadSprite`, `addClip`, `setRenderRect`, `setScaleRect` and `updateSpriteSize`.
  - `animate`.
  - Collider movement: `shiftBoxColliders`, `moveAllColliders` and `moveTo`.
  - `move`: shift every shape provisionally, test the level bounds, then the tiles, then the other sprites, and then either commit or roll back.
  - Pac-Man's arrow-key steering.
- **Text**:
  - the 20-character speech-box buffers as C strings;
  - the edits `handleTextInput` makes to them;
  - the save records they emit;
  - the 10-character line split of `renderTextBox`;
  - the way `loadSavedText` picks records of the save file into the three boxes.
- **Audio**:
  - the recorder's buffer sizing;
  - the two device callbacks, as sequential cursor advances;
  - the four-state recorder machine that `handleAudioInput` drives.
- **Textures**: the lock and unlock protocol of a pixel-streaming texture.
- **Game**: the program's globals as one class, with these steps:
  - Pac-Man's collision handler;
  - the text and audio input handlers;
  - the recorder switch;
  - the camera.

Some modelling choices apply throughout:

- Values are datatypes.
- State that the C code updates in place is a class field.
- The fixed-size C buffers stay arrays: sub-box lists, clips, the tile map, audio and text buffers.
- Loops become `while` loops. Each loop is proved against a function or predicate that specifies it, and the lemmas state the promised properties of those functions.

Integers are unbounded. C's truncating division appears explicitly as `Config.CDiv` where an operand can be negative.

Two behaviours of the code that a reader might not expect, and that the model follows:

- **The sprite-against-sprite test of `move`** (main.c:1358-1361) is a plain disjunction. It is the circle test, or an outer-box overlap that the sub-boxes refine. The box route is tried even when both sprites carry circles (`Colliders.BoxRouteIgnoresCircles`).
- **`animate`** (main.c:1448-1458) resets the frame to 0, and the game loop then increments it. So after the first cycle, clip 0 is held for one frame less and the last clip for one frame more than a uniform split would give (`Sprites.FirstClipSpan`, `Sprites.LastClipSpan`).

## Model

| member | source | states |
|---|---|---|
| Geometry.CheckCollision | main.c:1232-1244 | definition: checkCollision, false as soon as one box lies wholly left, right, above or below the other; `CollisionIffSharedCell` relates it to shared pixel cells |
| Geometry.CollisionIffSharedCell | main.c:1232-1244 | for boxes of positive size, checkCollision holds exactly when the two boxes share a pixel cell |
| Geometry.CollisionSymmetric | main.c:1232-1244 | checkCollision(a, b) equals checkCollision(b, a) |
| Geometry.EdgeContactIsNoCollision | main.c:1236-1241 | boxes that only touch along an edge never collide, in either order |
| Geometry.DistanceSquared | main.c:1487-1493 | the squared distance is never negative, and is zero exactly for equal points |
| Geometry.DistanceSquaredSymmetric | main.c:1487-1493 | the squared distance does not depend on the order of the two points |
| Geometry.CheckInnerBoxesCollisions | main.c:1247-1263 | the nested scan returns true iff some pair of sub-boxes, one from each list, overlaps; it returns false when either list is empty (NULL) |
| Geometry.CircleBoxIffSomePointInside | main.c:1266-1310 | the clamp-the-centre test of a circle against a box holds exactly when some point of the closed box lies strictly inside the circle |
| Colliders.HasColliders | main.c:1496-1499 | definition: hasColliders, true when the outer box, the sub-box list or the circle is present |
| Colliders.Translate | main.c:1390-1405 | definition: moveAllColliders on values, each present shape moved by (dx, dy) and each absent one left alone; the Translate lemmas state what it keeps and that it can be undone |
| Colliders.CheckLevelBoundsCollision | main.c:1313-1316 | definition: checkLevelBoundsCollision, the outer box leaves the level on some side; `InBoundsCellsInLevel` states what passing it means |
| Colliders.CheckCircularCollision | main.c:1266-1310 | definition: checkCircularCollision, circle against circle, or the one circle against the other sprite's outer box, and false without a circle |
| Colliders.SpritesCollide | main.c:1358-1361 | definition: the sprite-against-sprite test of `move`, the circle test or an outer-box overlap refined by the sub-boxes; `SpritesCollideSymmetric` and `BoxRouteIgnoresCircles` state its properties |
| Colliders.ShiftRects | main.c:1335-1342 | definition: the list of sub-boxes each moved by (dx, dy), which the loop of `Sprites.Sprite.ShiftBoxColliders` is proved against |
| Colliders.TranslateKeepsShapes | main.c:1390-1405 | moving the shapes never adds or removes a shape, and never changes a size or the radius |
| Colliders.TranslateCompose | main.c:1390-1405 | two moves of the shapes add up to one move by the summed delta |
| Colliders.TranslateInverse | main.c:1350-1378 | moving by the negated velocity restores every shape exactly (the roll-back of move) |
| Colliders.TranslateZero | main.c:1390-1405 | a move by (0, 0) changes nothing |
| Colliders.TranslateAbsent | main.c:1390-1405 | the shapes of a sprite without colliders are not affected by a move |
| Colliders.TranslateKeepsOffsets | main.c:1350-1378 | moving the position and the shapes by the same delta keeps every shape's offset from the position |
| Colliders.InBoundsCellsInLevel | main.c:1313-1316 | passing the level-bounds test puts every pixel of the outer box inside the level |
| Colliders.SpritesCollideSymmetric | main.c:1266-1310 | the sprite-against-sprite test does not depend on which sprite is moving |
| Colliders.BoxRouteIgnoresCircles | main.c:1358-1361 | overlapping outer boxes block when either sprite has no sub-boxes, whatever the circles say |
| Tiles.TileFor | main.c:1066-1076 | definition: the tile one map byte gives at the cursor, by its SDL_atoi value: solid in (0, nTileTypes), empty for 0, undefined otherwise |
| Tiles.ParseFrom | main.c:1061-1087 | definition: the tiles the load loop writes for the rest of the file from a cursor and a number of free slots; the Parse lemmas and `Tiles.ReadTiles` are stated against it |
| Tiles.FirstBlocking | main.c:1319-1332 | definition: the index of the first solid tile whose box overlaps the given one, if any; `FirstBlockingSpec` describes it independently |
| Tiles.LoadTile | main.c:1096-1110 | the built tile has the given type, flags and box, and its three copies of the box agree |
| Tiles.TileBytes | main.c:1061-1064 | the bytes of a map file that stand for tiles contain no line break and are never more than the file |
| Tiles.ParseSkipsLineBreaks | main.c:1063-1064 | line breaks never consume a slot and never move the cursor |
| Tiles.ParseLength | main.c:1061-1087 | the loader writes one tile per tile byte, and never more than the slots left |
| Tiles.ParseTileKinds | main.c:1066-1076 | the k-th tile comes from the k-th tile byte. A digit d with 0 < d < nTileTypes gives a solid visible tile of type d with the clip's size. The digit 0 and every non-digit give a non-solid invisible empty tile as high as clip 0 is wide. Any other digit gives an undefined zero box |
| Tiles.ParseFilteredKinds | main.c:1066-1076 | on line-break-free input, each written tile is the tile its byte gives with the cursor at some position |
| Tiles.ParseStaysInLevel | main.c:1078-1086 | with clips of non-negative size, every written tile starts in [0, LEVEL_WIDTH) horizontally and not above the level |
| Tiles.ParseStep | main.c:1061-1087 | one loader step: a line break is skipped, and any other byte becomes the tile at the cursor, which then advances or wraps |
| Tiles.LoadTileMap | main.c:1040-1093 | the map has the given size and clips, and its slots are the parsed tiles followed by unwritten ones; a file that cannot be opened leaves every slot unwritten |
| Tiles.ReadTiles | main.c:1061-1087 | the read loop writes exactly the parsed tiles into the first slots and leaves the rest untouched |
| Tiles.FirstBlockingSpec | main.c:1319-1332 | FirstBlocking names the first solid tile in map order that overlaps the box, and is None exactly when no tile does |
| Tiles.FirstBlockingIs | main.c:1319-1332 | any answer that meets the first-blocking description is FirstBlocking's |
| Tiles.FirstBlockingUnique | main.c:1319-1332 | at most one answer meets the first-blocking description |
| Tiles.CheckTileMapCollisions | main.c:1319-1332 | the scan returns the first solid tile in map order that overlaps the box, and None when no tile does |
| Tiles.SelectTilesToRender | main.c:1149-1159 | the selected indices are increasing; each one names a visible tile that overlaps the camera; every such tile is selected |
| Sprites.FirstColliding | main.c:1355-1364 | definition: the index of the first candidate view that is present and collides with the moved shapes; `FirstCollidingSpec` describes it independently |
| Sprites.Judge | main.c:1350-1369 | definition: the verdict of `move` on the moved shapes: out of bounds, else the first solid tile hit, else the first colliding candidate, else free |
| Sprites.AnimatedFrame | main.c:1448-1458 | definition: the frame `animate` leaves, reset to 0 once frame / (nClips * delayFactor) passes the last clip |
| Sprites.AnimatedIndex | main.c:1448-1458 | definition: the clip `animate` selects, the last one on a reset; `AnimatedIndexInRange` and the span lemmas state its properties |
| Sprites.FirstCollidingSpec | main.c:1355-1364 | FirstColliding names the first non-NULL, non-self candidate whose shapes collide with the moved ones, and is None exactly when there is none |
| Sprites.FirstCollidingIs | main.c:1355-1364 | any answer that meets the first-colliding description is FirstColliding's |
| Sprites.FirstCollidingUnique | main.c:1355-1364 | at most one answer meets the first-colliding description |
| Sprites.HandlerCall | main.c:1366-1374 | definition: the handler call is the party hit when a handler is set and the verdict is a hit, otherwise none |
| Sprites.OutOfBoundsCallsNothing | main.c:1353-1374 | a level-bounds hit never calls the handler |
| Sprites.TileHitIsFirstSolidTile | main.c:1319-1332 | a tile hit is the first solid tile in map order that overlaps the moved outer box, after the bounds test has passed |
| Sprites.SpriteHitIsFirstCandidate | main.c:1355-1366 | a sprite hit is the first non-NULL, non-self candidate that collides, after the bounds test and every tile have passed |
| Sprites.FreeIffNothingInTheWay | main.c:1350-1369 | the moved sprite is free exactly when it is in bounds, no solid tile overlaps its outer box and no candidate collides |
| Sprites.AnimatedIndexInRange | main.c:1448-1458 | the clip that animate selects is always in [0, nClips) |
| Sprites.AnimationResetIff | main.c:1450-1456 | the frame is reset exactly when it reaches nClips * nClips * delayFactor, and then the last clip shows |
| Sprites.AnimationNoReset | main.c:1450-1456 | below the reset point, the frame is kept and the clip is frame / (nClips * delayFactor) |
| Sprites.FirstClipSpan | main.c:1448-1458 | within a cycle after a reset, clip 0 shows for frames 1 to nClips * delayFactor - 1 |
| Sprites.LastClipSpan | main.c:1448-1458 | the last clip shows from frame (nClips - 1) * m up to and including frame nClips * m, where m = nClips * delayFactor |
| Sprites.PacSteering | main.c:1502-1534 | no arrow key gives None. Otherwise one axis moves at PAC_SPEED: up wins over down, down over left, left over right, and the flip is horizontal exactly when moving left |
| Sprites.PacSteeringPriority | main.c:1506-1530 | a pressed key overrides every key of lower priority |
| Sprites.Sprite.constructor | main.c:1162-1195 | loadSprite: max(nClips, 1) zero clips; the first clip is current; no scaling, colliders or motion; the given position, angle, flip and handler |
| Sprites.Sprite.UpdateSpriteSize | main.c:680-690 | the size follows the scale rectangle when there is one, otherwise the current clip; nothing else changes |
| Sprites.Sprite.AddClip | main.c:655-666 | an in-range index replaces that clip and, if asked, makes it current and resizes; an out-of-range index changes nothing |
| Sprites.Sprite.SetRenderRect | main.c:1461-1468 | an in-range index becomes the current clip and the size follows it; an out-of-range index changes nothing |
| Sprites.Sprite.SetScaleRect | main.c:669-677 | the scale rectangle becomes (0, 0, w, h) and the sprite takes that size, whatever the current clip is |
| Sprites.Sprite.SetDefaultCollider | main.c:1198-1201 | the outer box becomes the sprite's own box; nothing else changes |
| Sprites.Sprite.SetBoxColliders | main.c:499-534 | the hand-built sub-box lists of loadMedia: a fresh array holding exactly the given boxes, with the outer box, the circle, the motion and the look kept |
| Sprites.Sprite.Animate | main.c:1448-1458 | the frame becomes AnimatedFrame, and the current clip becomes AnimatedIndex, with the size following it; the colliders and the motion are kept |
| Sprites.Sprite.ShiftBoxColliders | main.c:1335-1342 | the sub-box array is shifted in place by (dx, dy) |
| Sprites.Sprite.MoveAllColliders | main.c:1390-1405 | the present shapes move by (dx, dy) and the absent ones stay put; position, motion and look are kept |
| Sprites.Sprite.MoveTo | main.c:1382-1387 | the sprite jumps to the point, with its present shapes moved by the same delta, so every offset is kept |
| Sprites.Sprite.Others | main.c:1355-1356 | definition: one view per candidate, in order: None for a NULL entry or the sprite itself, otherwise the entry's shapes |
| Sprites.Sprite.CollidesWith | main.c:1358-1361 | the test of one candidate is the sprite-against-sprite predicate on the two sprites' shapes |
| Sprites.Sprite.FirstCollidingCandidate | main.c:1355-1364 | the candidate loop returns FirstColliding on the sprite's shapes and the candidates' views |
| Sprites.Sprite.Probe | main.c:1353-1364 | the tests in order, bounds, then tiles, then candidates, give the Judge verdict |
| Sprites.Sprite.ShiftAndProbe | main.c:1352-1364 | the provisional half: the shapes moved by the velocity, and the verdict on the moved shapes |
| Sprites.Sprite.MoveChecked | main.c:1350-1378 | a free verdict advances the position by the velocity and keeps the moved shapes. Any other verdict keeps the position and restores every shape. The handler's party is HandlerCall of the verdict |
| Sprites.Sprite.Move | main.c:1345-1379 | without colliders the position always advances; with colliders, MoveChecked's commit or roll-back. The fields move never touches are kept |
| Sprites.Sprite.OthersUnchanged | main.c:1345-1379 | moving a sprite never changes the view of another candidate whose sub-box array is not shared |
| Sprites.Sprite.HandlePacInput | main.c:1502-1534 | the velocity, angle and flip come from PacSteering; with no key the velocity is zero and the heading is kept |
| Text.Strncpy | main.c:1223 | definition: strncpy on a buffer's contents, the source's characters up to its NUL and then NUL in the first n cells, the rest kept |
| Text.Strncat | main.c:1558 | definition: strncat on a view of memory that may run past the buffer; `StrncatAppends` states what it appends |
| Text.Lines | main.c:1657-1685 | definition: renderTextBox's split into 10-character lines, the last one holding the rest; `LinesShape` and `LinesAt` state its properties |
| Text.RecordPrompt | main.c:809-810 | definition: the prompt a complete record becomes, the record without its last byte, read up to a NUL |
| Text.ScanPrompts | main.c:800-814 | definition: the byte loop of loadSavedText from a given position, with rand() as an oracle; `ScanShape` and `ScanPicksRecords` state its properties |
| Text.SavedPrompts | main.c:788-815 | definition: the prompts loadSavedText sets, none for an empty file |
| Text.RecordPrompts | main.c:800-814 | definition: an independent split of a save file into its complete records as prompts, which `SavedPromptsAreRecords` compares the scan against |
| Text.LoadTextBoxAsWritten | main.c:1214-1224 | definition: loadTextBox as written on a view of memory that may run past the buffer; `LoadTextBoxWritesPastBuffer` and `LoadTextBoxFixAgrees` state its behaviour |
| Text.StrLen | main.c:1539 | the length is the index of the first NUL, or the whole buffer when there is none |
| Text.StrLenIs | main.c:1539 | the NUL-free prefix and the NUL that follows it pin the length down |
| Text.Clipped | main.c:1214-1224 | the clipped text is a NUL-free prefix of the string, shorter than the buffer |
| Text.StrncpyTerminates | main.c:1214-1224 | a copy of a NUL-free string shorter than the limit reads back as that string |
| Text.StrNCopy | main.c:1222-1223 | the in-place copy writes what strncpy writes: the source up to its NUL, then NUL padding up to the limit |
| Text.LinesShape | main.c:1657-1685 | the split gives len / 10 + 1 lines, each of at most 10 characters, which concatenate to the text |
| Text.LinesAt | main.c:1682-1685 | line k is the slice of the text from 10 * k, at most 10 characters long |
| Text.CStringWindow | main.c:1684-1685 | a 10-character window of the buffer, read as a C string, is the corresponding line |
| Text.TextBox.constructor | main.c:1205-1229 | loadTextBox: the box says the default text clipped to 19 characters, terminated inside the buffer (the corrected bound, see Findings) |
| Text.TextBox.Assign | main.c:762-776 | strncpy of a short text followed by a NUL: the box now says exactly that text |
| Text.TextBox.Backspace | main.c:1542-1545 | on a non-empty text, exactly the last character is removed |
| Text.TextBox.SaveRecord | main.c:1547-1552 | the record is the text followed by the delimiter, and the buffer is left exactly as it was |
| Text.TextBox.AppendInput | main.c:1557-1560 | the buffer becomes `Strncat` of the old buffer with the corrected bound: the text grows by the longest prefix of the input that fits in 19 characters, and the terminator stays inside the buffer (see Findings) |
| Text.TextBox.SplitLines | main.c:1657-1685 | the lines drawn are Lines of the box's text |
| Text.TextBox.CopyRecord | main.c:809-810 | a record copied into a box, with its last byte overwritten by a NUL, makes the box say the record's prompt |
| Text.RecordPromptShaped | main.c:803-810 | a record of at most 20 bytes with no earlier delimiter gives a prompt of at most 19 characters, with no NUL and no delimiter |
| Text.ScanShape | main.c:800-814 | the scan never fills more slots than there are, keeps the slots already filled, and every prompt is well-shaped |
| Text.SavedPromptsShape | main.c:788-815 | whatever rand() returns, the boxes receive at most three well-shaped prompts |
| Text.ScanPicksRecords | main.c:800-814 | from any position of the byte loop and whatever rand() returns, the prompts already chosen stay, and the ones added are complete records of the rest of the file, in file order, some skipped |
| Text.SavedPromptsAreRecords | main.c:788-815 | whatever rand() returns, the boxes receive records of the save file, in file order, and no more prompts than the file has records |
| Text.ScanTakesEveryRecord | main.c:800-814 | when every rand() draw is 0, every complete record is taken from the scan position on, in order |
| Text.SavedPromptsAlwaysPicking | main.c:788-815 | when every rand() draw is 0, the boxes receive the first records of the file, in order |
| Text.LoadSavedText | main.c:788-815 | the byte loop fills exactly the first |SavedPrompts| boxes, in the order Pac, Blinky, Inky, with SavedPrompts of the file and the rand() oracle; the others are untouched. Those prompts are records of the file, so a box past the file's record count keeps its text |
| Text.FillSlot | main.c:809-810 | the next free box receives the record's prompt, and the others are untouched |
| Text.LoadTextBoxWritesPastBuffer | main.c:1214-1224 | on a memory view longer than the buffer, loadTextBox as written with a default text of 20 or more characters fills the 20 cells with its first characters and stores the NUL in cell 20, one past the buffer |
| Text.LoadTextBoxFixAgrees | main.c:1214-1224 | for a default text shorter than 20, loadTextBox as written and the corrected constructor leave the same C string |
| Text.StrncatAppends | main.c:1557-1558 | strncat appends the first min(strlen(input), n) characters of the input to the C string and terminates right after them |
| Text.MultiCharInputOverflows | main.c:1557-1558 | on a memory view longer than the buffer, strncat with the bound as written and an input of 20 - len characters or more leaves the 20 cells without a NUL and stores it in cell 20 |
| Text.TwoCharsOverflowEighteen | main.c:1557-1558 | as written, the event "ab" on an 18-character text stores 'a' and 'b' in cells 18 and 19 and the NUL in cell 20 |
| Text.OneCharInputFits | main.c:1557-1558 | for a one-character event on a text shorter than 19, the bound as written and the corrected one give the same memory, with the terminator inside the buffer |
| Audio.AudioStep | main.c:1572-1617 | definition: one call of handleAudioInput on an available device, the next state with the rewind, forced-OFF and clear-saved side effects; the Audio lemmas state its properties |
| Audio.BytesPerSecond | main.c:724-727 | bytes per second is never negative, and is zero exactly when the frequency, the channels or the sample width in bytes is zero |
| Audio.ChunkFits | main.c:728-729 | a chunk of at most one second, delivered while the cursor has not passed maxPos, stays inside the buffer; the spare is exactly one second |
| Audio.WriteThenRead | main.c:741-745 | reading back where a chunk was written gives the chunk, and no other byte changes |
| Audio.RecordingStarts | main.c:1573-1580 | a recording starts only from PAUSED with the button ON, and then the cursor is rewound to 0 |
| Audio.PlaybackStarts | main.c:1593-1603 | a playback starts only from RECORDED with the button OFF and the text saved, and then the cursor is rewound to 0 |
| Audio.RunsEndPastMaxPos | main.c:1581-1616 | a recording or playback goes on until the cursor passes maxPos and then settles in RECORDED. A recording that ends forces the button OFF; a playback that ends clears the saved flag |
| Audio.SideEffectsOnlyAtEdges | main.c:1572-1617 | the button is forced OFF, or the saved flag cleared, only as a run ends; the cursor is rewound only as one starts |
| Audio.ButtonOnDiscardsRecording | main.c:1594-1596 | RECORDED with the button ON goes back to PAUSED, with nothing else done |
| Audio.AudioDevice.Absent | main.c:624-645 | when no recording device is listed, the device stays zeroed: no name, not available, PAUSED and both SDL devices paused |
| Audio.AudioDevice.constructor | main.c:693-737 | available iff both opens succeed. The name is the device's, clipped to 30 characters, unless an open fails; then it is that failure's message, the playback one last. An available device gets a zeroed buffer of (MAX+1) * bps bytes and maxPos = MAX * bps |
| Audio.AudioDevice.Step | main.c:1572-1617 | one transition of AudioStep: the state and cursor change as it says, and the SDL devices are paused or unpaused to match the new state |
| Audio.AudioDevice.RecordingCallback | main.c:741-745 | the chunk is written at the cursor, which advances past it; nothing else changes |
| Audio.AudioDevice.PlaybackCallback | main.c:748-752 | the chunk at the cursor is handed out, and the cursor advances past it; nothing else changes |
| Textures.LockStep | main.c:966-984 | definition: the outcome and new lock state of lockPixelTexture, given SDL's answer; `LockSpec` states it in words |
| Textures.UnlockStep | main.c:987-1004 | definition: the outcome and new lock state of unlockPixelTexture; `UnlockSpec` states it in words |
| Textures.Texture.constructor | main.c:950-956 | a texture as loaded is unlocked, with the pitch it was given |
| Textures.Texture.Lock | main.c:966-984 | the outcome and the new state are LockStep of the old state and SDL's answer |
| Textures.Texture.Unlock | main.c:987-1004 | the outcome and the new state are UnlockStep of the old state |
| Textures.LockSpec | main.c:966-984 | the lock succeeds exactly for an unlocked streaming texture that SDL agrees to lock. It then holds SDL's address and pitch; a failed lock changes nothing |
| Textures.UnlockSpec | main.c:987-1004 | the unlock succeeds exactly for a locked streaming texture, and then drops the pointer and zeroes the pitch; a failed unlock changes nothing |
| Textures.NoDoubleTransitions | main.c:966-1004 | locking a locked texture, or unlocking an unlocked one, fails and changes nothing |
| Textures.LockThenUnlock | main.c:966-1004 | a successful lock followed by an unlock succeeds and leaves the texture unlocked with pitch 0 |
| Textures.StaticTextureInert | main.c:966-1004 | a texture that does not stream pixels is never locked or unlocked |
| Game.CenteredCamera | main.c:1880-1901 | definition: centerCamera on values, centred on Pac-Man and then clamped to the level on each axis; the Camera lemmas state its properties |
| Game.ClickInside | main.c:1647 | definition: the click test of switchRecorder, strictly inside the button; `BorderClickMisses` states its edge case |
| Game.CameraStaysInLevel | main.c:1880-1901 | with a view no larger than the level, the camera stays inside the level |
| Game.CameraCentredAwayFromEdges | main.c:1882-1883 | away from the level edges, the camera is exactly centred on Pac-Man's sprite |
| Game.CameraSticksToEdges | main.c:1886-1900 | near an edge, the camera is pinned to that edge |
| Game.BorderClickMisses | main.c:1641-1644 | a click on the button's border, or outside it, never switches the recorder |
| Game.DeviceNameShownAsWritten | main.c:1567-1569 | as written, the device name is copied into the 20-byte text buffer with a limit of 20 |
| Game.DeviceNameLeavesTextUnterminated | main.c:1567-1569 | as written, the name "No recording devices :(" leaves the text buffer with no terminator |
| Game.DeviceNameFixAgrees | main.c:1567-1569 | for a name that fits, the copy as written and the corrected clipped text agree |
| Game.Game.constructor | main.c:453-652 | the globals once loadMedia has run: the actors, boxes, device, map and camera given; not saved; nothing written or drawn yet |
| Game.Game.CenterCamera | main.c:1880-1901 | the camera becomes CenteredCamera of Pac-Man's position; nothing else changes |
| Game.Game.PacCollisionHandler | main.c:755-785 | meeting Inky sets Pac-Man's and Inky's texts, meeting Blinky sets Pac-Man's and Blinky's, and a standard block starts a sine wave at Pac-Man's frame. A ghost is never read as a standard block, and nothing else changes |
| Game.Game.PacMove | main.c:318-323 | Pac-Man's move against [Pac-Man, Blinky, Inky], which is Judge on the moved shapes, followed by the handler for that party: a hit on Blinky or Inky sets Pac-Man's text and that ghost's, a hit on a standard block adds a wave at Pac-Man's frame, and otherwise the texts and waves are unchanged |
| Game.Game.HandleTextInput | main.c:1537-1562 | Backspace on a non-empty text drops its last character and clears saved. Return on a non-empty text appends text + '\n' to the save file and sets saved. Both do nothing on an empty text. A text event on a text shorter than 19 appends a prefix of the input and clears saved. The text always stays under 20 |
| Game.Game.HandleAudioInput | main.c:1565-1617 | an unavailable device shows its clipped name in Pac-Man's box and changes no state. An available one takes an AudioStep with the button's clip as the switch; the button is forced OFF and saved cleared as the step says |
| Game.Game.SwitchRecorder | main.c:1636-1651 | outside PLAYBACK, a mouse press strictly inside the button, with the camera offset added, switches it ON and resizes it; otherwise nothing changes |

## Left out

- SDL start-up and shutdown; surface, texture, font and WAV loading; `loadRenderedText`. These are foreign library calls. The globals `loadMedia` sets up are constructor parameters of `Game.Game`.
- All drawing. This covers `render`, `renderSprite`, `renderTile`, `renderColliders`, the drawing half of `renderTextBox`, `renderPacTextBoxes`, `renderPacRecorderButton` and `renderPacSoundWave`. Of `renderTileMap` only the choice of tiles is modelled, and of `renderTextBox` only the line split.
- `addSineWaveTexture`: it is floating-point `sin` and raw pixel writes. `Game.Game.PacCollisionHandler` records only the start period that each call receives, in `sineWaves`.
- Concurrency with the audio thread, and `SDL_LockAudioDevice`/`SDL_UnlockAudioDevice`. The callbacks are sequential methods. `SDL_PauseAudioDevice` is modelled as the `recordingActive`/`playbackActive` flags.
- Device enumeration and opening (main.c:624-645, 693-722). Whether each open succeeded, the device name and the obtained format are constructor parameters of `Audio.AudioDevice`.
- File I/O through `SDL_RWops`:
  - the map file and the save file are byte or character sequences read from their start, with no short reads;
  - `SDL_RWwrite` in `handleTextInput` appends to the `saveFile` sequence.
- `rand()`: `loadSavedText` takes it as an oracle `roll: nat -> nat` (the k-th draw).
- `randomizeGhostsVelocity`, `loadSparklesSprite`, `renderSparkles` and the power-up respawn: they are driven by `rand()` and only animate decoration.
- `handleWindowEvents`: window resizing only changes the camera size.
- The ghosts' own `move` calls in the game loop (main.c:326-327). These are `Sprites.Sprite.Move` with `NoHandler` and are not repeated in `Game`.
- Memory management: `SDL_malloc`/`SDL_free`, `freeSprite`, and the uninitialised `boxColliders` pointer of `loadSprite`. A NULL sub-box list is the empty array.
- Uninitialised memory:
  - the clips `loadSprite` allocates are modelled as zero boxes;
  - tile slots past the end of the map file are modelled as a zero, non-solid, invisible tile;
  - when a device is not available, `audiobufferSize`, `bufferMaxPos` and `bufferCurrentPos` are never set (main.c:724-732) and are modelled as 0.
- Character encoding: a `char` stands for one byte, so a multi-byte UTF-8 character in a text event arrives as several chars, and the 19-character limit counts bytes.
- `int` overflow, for example in `distanceSquared` and in the cursor arithmetic.
- Floating point:
  - the `double` radii sum in `checkCircularCollision` is modelled as integer arithmetic;
  - the sprite's `double` angle holds whole degrees.
- Sprites.Sprite.Move: the handler's call is reported as the party it receives. `checkTileMapCollisions` makes that call from inside the tile scan, and `Game.Game.PacMove` runs the handler right after `move`. This is the same order of effects, because `move` reads nothing the handler changes.
- Audio.AudioDevice.RecordingCallback: requires that cursor + len stays within the buffer. The source does not check this. `Audio.ChunkFits` shows that it holds for chunks of at most one second, delivered while the cursor has not passed maxPos.
- Audio.AudioDevice.PlaybackCallback: has the same precondition as the recording callback, for the same reason.
- Audio.AudioDevice.constructor: takes the device name as a NUL-free string. It does not model a name of 30 bytes or more, which `strncpy` leaves without its terminator.

## Findings

| source | as written | input that shows it | evidently intended | confidence | as-written member | corrected member |
|---|---|---|---|---|---|---|
| main.c:1557-1558 | `strncat` is bounded by `TEXT_BOX_BUFFER_SIZE - textLen`, which leaves no room for the terminator strncat adds after the copied characters | a text of 18 characters and a text event "ab": 'a' and 'b' go to indices 18 and 19, and the NUL to index 20, past the 20-byte buffer | the bound `TEXT_BOX_BUFFER_SIZE - 1 - textLen`, so the text stays at most 19 characters | not executed | Text.MultiCharInputOverflows | Text.TextBox.AppendInput |
| main.c:1567-1569 | the unavailable device's name is copied with `strncpy(textBuffer, name, 20)`, and the source adds no terminator | the name "No recording devices :(" (23 characters) fills all 20 bytes with no NUL, so the next `strlen` of the text box reads past the buffer | copy at most 19 characters and terminate, as the other text writes do | not executed | Game.DeviceNameLeavesTextUnterminated | Game.Game.HandleAudioInput |
| main.c:1214-1224 | `loadTextBox` copies up to 20 characters of the default text and writes the terminator at index strlen, capped at 20 | a default text of 20 characters puts the NUL at index 20, one past the buffer | clip the default text to 19 characters | not executed | Text.LoadTextBoxWritesPastBuffer | Text.TextBox.constructor |
