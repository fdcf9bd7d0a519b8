/**
 * The game's global state and the per-frame bookkeeping around the sprite
 * engine: Pac-Man's collision handler, the text and audio input handlers,
 * the recorder button and the camera.
 */
module Game {
  import opened Wrappers
  import opened Config
  import opened Geometry
  import opened Colliders
  import opened Tiles
  import opened Sprites
  import opened Text
  import Audio

  /** The keys handleTextInput reacts to; every other key is OtherKey. */
  datatype Scancode = BackspaceKey | ReturnKey | OtherKey

  /** The SDL events the handlers look at; TextInput carries the event's C string. */
  datatype Event = KeyDown(code: Scancode) | TextInput(text: string) | MouseButtonDown | OtherEvent

  const PAC_TEXT: string := "OHSNAP :("
  const INKY_TEXT: string := ">:)"
  const BLINKY_TEXT: string := "DUCK YOU"

  /**
   * One axis of centerCamera's clamp: first against the low edge, then
   * against the high edge, in that order.
   */
  function ClampAxis(c: int, size: int, limit: int): int
  {
    var low := if c < 0 then 0 else c;
    if low + size > limit then limit - size else low
  }

  /** The camera offset that puts Pac-Man's sprite centre in the middle of a view of that size. */
  function CentreOn(p: int, size: int): int
  {
    p + SHEET_STANDARD_SPRITE_SIZE / 2 - CDiv(size, 2)
  }

  /** centerCamera on values: centre on Pac-Man, then keep the camera inside the level. */
  function CenteredCamera(px: int, py: int, camera: Rect): Rect
  {
    camera.(x := ClampAxis(CentreOn(px, camera.w), camera.w, LEVEL_WIDTH),
            y := ClampAxis(CentreOn(py, camera.h), camera.h, LEVEL_HEIGHT))
  }

  /** With a view no larger than the level (the window's maximum size), the camera never leaves the level. */
  lemma CameraStaysInLevel(px: int, py: int, camera: Rect)
    requires camera.w <= LEVEL_WIDTH && camera.h <= LEVEL_HEIGHT
    ensures var r := CenteredCamera(px, py, camera);
      && 0 <= r.x && r.x + r.w <= LEVEL_WIDTH
      && 0 <= r.y && r.y + r.h <= LEVEL_HEIGHT
      && r.w == camera.w && r.h == camera.h
  {
  }

  /** Away from the level edges the camera is exactly centred on Pac-Man. */
  lemma CameraCentredAwayFromEdges(px: int, py: int, camera: Rect)
    requires 0 <= CentreOn(px, camera.w) && CentreOn(px, camera.w) + camera.w <= LEVEL_WIDTH
    requires 0 <= CentreOn(py, camera.h) && CentreOn(py, camera.h) + camera.h <= LEVEL_HEIGHT
    ensures CenteredCamera(px, py, camera) == camera.(x := CentreOn(px, camera.w), y := CentreOn(py, camera.h))
  {
  }

  /** Near an edge the camera sticks to it: it moves only as much as the level allows. */
  lemma CameraSticksToEdges(px: int, py: int, camera: Rect)
    requires 0 <= camera.w <= LEVEL_WIDTH
    ensures var r := CenteredCamera(px, py, camera);
      && (CentreOn(px, camera.w) < 0 ==> r.x == 0)
      && (CentreOn(px, camera.w) + camera.w > LEVEL_WIDTH ==> r.x == LEVEL_WIDTH - camera.w)
  {
  }

  /** The click test of switchRecorder: strictly inside the button, in level coordinates. */
  predicate ClickInside(x: int, y: int, left: int, top: int, bw: int, bh: int)
  {
    left < x < left + bw && top < y < top + bh
  }

  /** A click on the button's border or outside it never counts. */
  lemma BorderClickMisses(x: int, y: int, left: int, top: int, bw: int, bh: int)
    requires x == left || y == top || x == left + bw || y == top + bh
    ensures !ClickInside(x, y, left, top, bw, bh)
  {
  }

  /**
   * The unavailable-device branch of handleAudioInput AS WRITTEN: the device
   * name is strncpy'd into the 20-byte text buffer with a limit of 20.
   */
  function DeviceNameShownAsWritten(buffer: seq<char>, name: string): (r: seq<char>)
    requires |buffer| == TEXT_BOX_BUFFER_SIZE
    ensures |r| == TEXT_BOX_BUFFER_SIZE
  {
    Strncpy(buffer, name, TEXT_BOX_BUFFER_SIZE)
  }

  /**
   * "No recording devices :(" is 23 characters: the copy fills all 20 bytes
   * and leaves no terminator, so the next strlen of the text box runs past
   * the buffer.
   */
  lemma DeviceNameLeavesTextUnterminated(buffer: seq<char>)
    requires |buffer| == TEXT_BOX_BUFFER_SIZE
    ensures StrLen(DeviceNameShownAsWritten(buffer, Audio.NO_RECORDING_NAME)) == TEXT_BOX_BUFFER_SIZE
  {
    var r := DeviceNameShownAsWritten(buffer, Audio.NO_RECORDING_NAME);
    assert NoNul(Audio.NO_RECORDING_NAME);
    StrLenIs(Audio.NO_RECORDING_NAME, |Audio.NO_RECORDING_NAME|);
    StrncpyTerminates(buffer, Audio.NO_RECORDING_NAME, TEXT_BOX_BUFFER_SIZE);
    assert r == r[..TEXT_BOX_BUFFER_SIZE];
    StrLenIs(r, TEXT_BOX_BUFFER_SIZE);
  }

  /** For a name that fits, the copy as written and the clipped text of the corrected branch agree. */
  lemma DeviceNameFixAgrees(buffer: seq<char>, name: string)
    requires |buffer| == TEXT_BOX_BUFFER_SIZE && StrLen(name) < TEXT_BOX_BUFFER_SIZE
    ensures CString(DeviceNameShownAsWritten(buffer, name)) == Clipped(name)
  {
    StrncpyTerminates(buffer, name, TEXT_BOX_BUFFER_SIZE);
  }

  /**
   * The globals the handlers share: the three actors, the recorder button,
   * the three text boxes, the audio device, the tile map, the camera and the
   * saved flag. The save file is the text the handlers append to it, and
   * sineWaves records the start period of every addSineWaveTexture call.
   */
  class Game {
    const pac: Sprite
    const blinky: Sprite
    const inky: Sprite
    const pacRecorder: Sprite
    const pacTextBox: TextBox
    const blinkyTextBox: TextBox
    const inkyTextBox: TextBox
    const device: Audio.AudioDevice
    const tiles: array<Tile>
    var camera: Rect
    var textSaved: bool
    var saveFile: seq<char>
    var sineWaves: seq<int>

    ghost predicate Valid()
      reads this, pac, blinky, inky, pacRecorder, device
      reads pacTextBox, blinkyTextBox, inkyTextBox
      reads pacTextBox.textBuffer, blinkyTextBox.textBuffer, inkyTextBox.textBuffer
    {
      && pac.Valid() && blinky.Valid() && inky.Valid() && pacRecorder.Valid()
      && pac != blinky && pac != inky && blinky != inky
      && pacRecorder != pac && pacRecorder != blinky && pacRecorder != inky
      && pac.boxColliders != blinky.boxColliders && pac.boxColliders != inky.boxColliders
      && pac.handler == PacHandler
      && Audio.ON < pacRecorder.clips.Length
      && pacTextBox.Valid() && blinkyTextBox.Valid() && inkyTextBox.Valid()
      && pacTextBox.textBuffer != blinkyTextBox.textBuffer
      && pacTextBox.textBuffer != inkyTextBox.textBuffer
      && blinkyTextBox.textBuffer != inkyTextBox.textBuffer
      && device.Valid() && device.Active()
      && tiles.Length == TILE_MAP_SIZE
    }

    /** The globals once loadMedia has run; saved is false and nothing is written yet. */
    constructor (pac: Sprite, blinky: Sprite, inky: Sprite, pacRecorder: Sprite,
                 pacTextBox: TextBox, blinkyTextBox: TextBox, inkyTextBox: TextBox,
                 device: Audio.AudioDevice, tiles: array<Tile>, camera: Rect)
      requires pac.Valid() && blinky.Valid() && inky.Valid() && pacRecorder.Valid()
      requires pac != blinky && pac != inky && blinky != inky
      requires pacRecorder != pac && pacRecorder != blinky && pacRecorder != inky
      requires pac.boxColliders != blinky.boxColliders && pac.boxColliders != inky.boxColliders
      requires pac.handler == PacHandler && Audio.ON < pacRecorder.clips.Length
      requires pacTextBox.Valid() && blinkyTextBox.Valid() && inkyTextBox.Valid()
      requires pacTextBox.textBuffer != blinkyTextBox.textBuffer
      requires pacTextBox.textBuffer != inkyTextBox.textBuffer
      requires blinkyTextBox.textBuffer != inkyTextBox.textBuffer
      requires device.Valid() && device.Active()
      requires tiles.Length == TILE_MAP_SIZE
      ensures Valid()
      ensures this.pac == pac && this.blinky == blinky && this.inky == inky && this.pacRecorder == pacRecorder
      ensures this.pacTextBox == pacTextBox && this.blinkyTextBox == blinkyTextBox && this.inkyTextBox == inkyTextBox
      ensures this.device == device && this.tiles == tiles && this.camera == camera
      ensures !textSaved && saveFile == [] && sineWaves == []
    {
      this.pac, this.blinky, this.inky, this.pacRecorder := pac, blinky, inky, pacRecorder;
      this.pacTextBox, this.blinkyTextBox, this.inkyTextBox := pacTextBox, blinkyTextBox, inkyTextBox;
      this.device, this.tiles, this.camera := device, tiles, camera;
      textSaved, saveFile, sineWaves := false, [], [];
    }

    /** The candidate list of every `move` call in the game loop. */
    function Candidates(): seq<Sprite?>
    {
      [pac, blinky, inky]
    }

    /** centerCamera. */
    method CenterCamera()
      modifies this
      ensures camera == CenteredCamera(pac.x, pac.y, old(camera))
      ensures textSaved == old(textSaved) && saveFile == old(saveFile) && sineWaves == old(sineWaves)
    {
      var cx := (pac.x + SHEET_STANDARD_SPRITE_SIZE / 2) - CDiv(camera.w, 2);
      var cy := (pac.y + SHEET_STANDARD_SPRITE_SIZE / 2) - CDiv(camera.h, 2);
      if cx < 0 {
        cx := 0;
      }
      if cy < 0 {
        cy := 0;
      }
      if cx + camera.w > LEVEL_WIDTH {
        cx := LEVEL_WIDTH - camera.w;
      }
      if cy + camera.h > LEVEL_HEIGHT {
        cy := LEVEL_HEIGHT - camera.h;
      }
      camera := camera.(x := cx, y := cy);
    }

    /**
     * pacCollisionHandler. Meeting Inky or Blinky sets Pac-Man's text and
     * that ghost's reply; hitting a standard block starts a sine wave at
     * Pac-Man's frame. A ghost party is never a standard block: read as a
     * tile, a sprite's first word is its clip pointer.
     */
    method PacCollisionHandler(party: Party)
      requires Valid()
      modifies this, pacTextBox.textBuffer, blinkyTextBox.textBuffer, inkyTextBox.textBuffer
      ensures Valid()
      ensures camera == old(camera) && textSaved == old(textSaved) && saveFile == old(saveFile)
      ensures party == SpriteParty(2) ==>
        pacTextBox.Text() == PAC_TEXT && inkyTextBox.Text() == INKY_TEXT && blinkyTextBox.Text() == old(blinkyTextBox.Text())
      ensures party == SpriteParty(1) ==>
        pacTextBox.Text() == PAC_TEXT && blinkyTextBox.Text() == BLINKY_TEXT && inkyTextBox.Text() == old(inkyTextBox.Text())
      ensures !(party == SpriteParty(1) || party == SpriteParty(2)) ==>
        pacTextBox.Text() == old(pacTextBox.Text()) && blinkyTextBox.Text() == old(blinkyTextBox.Text()) &&
        inkyTextBox.Text() == old(inkyTextBox.Text())
      ensures sineWaves == old(sineWaves) +
        (if party.TileParty? && party.tile < tiles.Length && tiles[party.tile].tileType == STANDARD_BLOCK
         then [pac.frame] else [])
    {
      match party
      case SpriteParty(k) =>
        var colliding := if k < |Candidates()| then Candidates()[k] else null;
        if colliding == inky {
          pacTextBox.Assign(PAC_TEXT);
          inkyTextBox.Assign(INKY_TEXT);
        }
        if colliding == blinky {
          pacTextBox.Assign(PAC_TEXT);
          blinkyTextBox.Assign(BLINKY_TEXT);
        }
      case TileParty(i) =>
        if i < tiles.Length && tiles[i].tileType == STANDARD_BLOCK {
          sineWaves := sineWaves + [pac.frame];
        }
    }

    /**
     * Pac-Man's `move` in the game loop, against Pac-Man, Blinky and Inky,
     * followed by the collision handler for the party `move` reports.
     */
    method PacMove() returns (called: Option<Party>)
      requires Valid()
      modifies this, pac, pac.boxColliders, pacTextBox.textBuffer, blinkyTextBox.textBuffer, inkyTextBox.textBuffer
      ensures Valid() && pac.SteadyKept()
      ensures !HasColliders(old(pac.Colliders())) ==>
        pac.x == old(pac.x) + pac.velX && pac.y == old(pac.y) + pac.velY && called == None
      ensures HasColliders(old(pac.Colliders())) ==>
        var moved := Translate(old(pac.Colliders()), pac.velX, pac.velY);
        var v := Judge(moved, tiles[..], [None, Some(old(blinky.Colliders())), Some(old(inky.Colliders()))]);
        && called == HandlerCall(PacHandler, v)
        && (v == Free ==> pac.x == old(pac.x) + pac.velX && pac.y == old(pac.y) + pac.velY && pac.Colliders() == moved)
        && (v != Free ==> pac.x == old(pac.x) && pac.y == old(pac.y) && pac.Colliders() == old(pac.Colliders()))
      ensures called == Some(SpriteParty(2)) ==>
        pacTextBox.Text() == PAC_TEXT && inkyTextBox.Text() == INKY_TEXT && blinkyTextBox.Text() == old(blinkyTextBox.Text())
      ensures called == Some(SpriteParty(1)) ==>
        pacTextBox.Text() == PAC_TEXT && blinkyTextBox.Text() == BLINKY_TEXT && inkyTextBox.Text() == old(inkyTextBox.Text())
      ensures !(called == Some(SpriteParty(1)) || called == Some(SpriteParty(2))) ==>
        pacTextBox.Text() == old(pacTextBox.Text()) && blinkyTextBox.Text() == old(blinkyTextBox.Text()) &&
        inkyTextBox.Text() == old(inkyTextBox.Text())
      ensures sineWaves == old(sineWaves) +
        (if called.Some? && called.value.TileParty? && called.value.tile < tiles.Length &&
            tiles[called.value.tile].tileType == STANDARD_BLOCK
         then [pac.frame] else [])
      ensures camera == old(camera) && textSaved == old(textSaved) && saveFile == old(saveFile)
    {
      ghost var others := pac.Others(Candidates());
      assert others == [None, Some(blinky.Colliders()), Some(inky.Colliders())] by {
        assert others[0] == pac.ViewOf(pac);
        assert others[1] == pac.ViewOf(blinky);
        assert others[2] == pac.ViewOf(inky);
      }
      called := pac.Move(tiles, Candidates());
      if called.Some? {
        PacCollisionHandler(called.value);
      }
    }

    /**
     * handleTextInput. Backspace and Return act only on a non-empty text:
     * Backspace drops the last character and clears the saved flag, Return
     * appends the text and a line break to the save file and sets it. A text
     * event is appended while the text is shorter than 19 characters, and at
     * most up to 19 of them (the corrected bound, see Findings).
     */
    method HandleTextInput(e: Event)
      requires Valid()
      modifies this, pacTextBox.textBuffer
      ensures Valid()
      ensures camera == old(camera) && sineWaves == old(sineWaves)
      ensures var t := old(pacTextBox.Text());
        match e
        case KeyDown(BackspaceKey) =>
          if |t| > 0 then pacTextBox.Text() == t[..|t| - 1] && !textSaved && saveFile == old(saveFile)
          else pacTextBox.Text() == t && textSaved == old(textSaved) && saveFile == old(saveFile)
        case KeyDown(ReturnKey) =>
          if |t| > 0 then pacTextBox.Text() == t && textSaved && saveFile == old(saveFile) + t + [SAVE_FILE_DELIMITER]
          else pacTextBox.Text() == t && textSaved == old(textSaved) && saveFile == old(saveFile)
        case TextInput(text) =>
          if |t| < TEXT_BOX_BUFFER_SIZE - 1 then
            pacTextBox.Text() == t + text[..Min(StrLen(text), TEXT_BOX_BUFFER_SIZE - 1 - |t|)] &&
            !textSaved && saveFile == old(saveFile)
          else pacTextBox.Text() == t && textSaved == old(textSaved) && saveFile == old(saveFile)
        case _ =>
          pacTextBox.Text() == t && textSaved == old(textSaved) && saveFile == old(saveFile)
      ensures |pacTextBox.Text()| < TEXT_BOX_BUFFER_SIZE
    {
      var textLen := |pacTextBox.Text()|;
      match e
      case KeyDown(code) =>
        if code == BackspaceKey && textLen > 0 {
          pacTextBox.Backspace();
          textSaved := false;
        }
        if code == ReturnKey && textLen > 0 {
          var record := pacTextBox.SaveRecord();
          saveFile := saveFile + record;
          textSaved := true;
        }
      case TextInput(text) =>
        if textLen < TEXT_BOX_BUFFER_SIZE - 1 {
          pacTextBox.AppendInput(text);
          textSaved := false;
        }
      case _ =>
    }

    /**
     * handleAudioInput. An unavailable device shows its name in Pac-Man's
     * text box (clipped to the buffer, see Findings) and nothing else
     * changes; an available one takes one step of the recorder machine,
     * with the button's current clip as the switch.
     */
    method HandleAudioInput()
      requires Valid()
      modifies this, device, pacRecorder, pacTextBox.textBuffer
      ensures Valid()
      ensures camera == old(camera) && saveFile == old(saveFile) && sineWaves == old(sineWaves)
      ensures !old(device.available) ==>
        && pacTextBox.Text() == Clipped(device.name)
        && unchanged(device) && unchanged(pacRecorder) && textSaved == old(textSaved)
      ensures old(device.available) ==>
        var s := Audio.AudioStep(old(device.state), old(device.bufferCurrentPos), device.bufferMaxPos,
                                 old(pacRecorder.renderIndex) == Audio.ON, old(textSaved));
        && device.state == s.state
        && device.bufferCurrentPos == (if s.rewind then 0 else old(device.bufferCurrentPos))
        && device.available && device.bufferMaxPos == old(device.bufferMaxPos)
        && pacRecorder.renderIndex == (if s.forceOff then Audio.OFF else old(pacRecorder.renderIndex))
        && textSaved == (old(textSaved) && !s.clearSaved)
        && pacTextBox.Text() == old(pacTextBox.Text())
      ensures pacRecorder.MotionKept() && pacRecorder.CollidersKept() && pacRecorder.scaleRect == old(pacRecorder.scaleRect)
      ensures pacRecorder.w == old(pacRecorder.w) && pacRecorder.h == old(pacRecorder.h)
      ensures device.name == old(device.name) && device.audioBuffer == old(device.audioBuffer)
      ensures device.audiobufferSize == old(device.audiobufferSize)
    {
      if !device.available {
        pacTextBox.Assign(Clipped(device.name));
        return;
      }
      var buttonOn := pacRecorder.renderIndex == Audio.ON;
      var forceOff, clearSaved := device.Step(buttonOn, textSaved);
      if forceOff {
        pacRecorder.renderIndex := Audio.OFF;
      }
      if clearSaved {
        textSaved := false;
      }
    }

    /**
     * switchRecorder: outside PLAYBACK, a mouse press strictly inside the
     * recorder button (the mouse position shifted by the camera) switches it ON.
     */
    method SwitchRecorder(e: Event, mouseX: int, mouseY: int)
      requires Valid()
      modifies pacRecorder
      ensures Valid()
      ensures var x, y := mouseX + camera.x, mouseY + camera.y;
        var pressed := e == MouseButtonDown && device.state != Audio.Playback &&
          ClickInside(x, y, old(pacRecorder.x), old(pacRecorder.y), old(pacRecorder.w), old(pacRecorder.h));
        && (pressed ==> pacRecorder.renderIndex == Audio.ON && pacRecorder.SizeFollowsRender())
        && (!pressed ==> unchanged(pacRecorder))
      ensures pacRecorder.MotionKept() && pacRecorder.CollidersKept() && pacRecorder.scaleRect == old(pacRecorder.scaleRect)
    {
      if e == MouseButtonDown && device.state != Audio.Playback {
        var x := mouseX + camera.x;
        var y := mouseY + camera.y;
        if x > pacRecorder.x && x < pacRecorder.x + pacRecorder.w && y > pacRecorder.y && y < pacRecorder.y + pacRecorder.h {
          pacRecorder.SetRenderRect(Audio.ON);
        }
      }
    }
  }
}
