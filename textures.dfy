/**
 * The lock protocol of a pixel-streaming texture: a texture is locked
 * exactly while it holds a pixel pointer, and lockPixelTexture /
 * unlockPixelTexture move it between the two states, refusing the moves
 * that make no sense.
 */
module Textures {
  import opened Wrappers

  /** What SDL_LockTexture reports: failure, or the pixel address and the row pitch it hands out. */
  datatype LockResult = LockFailed | Locked(address: nat, rowPitch: int)

  /** The lock-relevant part of Texture: its pixelstream flag, pixels pointer (None is NULL) and pitch. */
  class Texture {
    const pixelstream: bool
    var pixels: Option<nat>
    var pitch: int

    predicate IsLocked()
      reads this
    {
      pixels.Some?
    }

    function State(): LockState
      reads this
    {
      LockState(pixelstream, pixels, pitch)
    }

    /** A texture as loadTexture / loadPixelTexture return it: unlocked, pitch 0 for a static one. */
    constructor (streaming: bool, pitch0: int)
      ensures pixelstream == streaming && !IsLocked() && pitch == pitch0
    {
      pixelstream := streaming;
      pixels := None;
      pitch := pitch0;
    }

    /**
     * lockPixelTexture: succeeds iff the texture streams pixels, is not
     * already locked and SDL grants the lock, which then stores the pixel
     * pointer and pitch; in every other case the texture is left unchanged.
     */
    method Lock(sdl: LockResult) returns (ok: bool)
      modifies this
      ensures (ok, State()) == LockStep(old(State()), sdl)
    {
      if !pixelstream {
        return false;
      }
      if pixels.Some? {
        return false;
      }
      match sdl
      case LockFailed =>
        return false;
      case Locked(address, rowPitch) =>
        pixels, pitch := Some(address), rowPitch;
        return true;
    }

    /**
     * unlockPixelTexture: succeeds iff the texture streams pixels and is
     * locked, and then drops the pixel pointer and zeroes the pitch; otherwise
     * the texture is left unchanged.
     */
    method Unlock() returns (ok: bool)
      modifies this
      ensures (ok, State()) == UnlockStep(old(State()))
    {
      if !pixelstream {
        return false;
      }
      if pixels.None? {
        return false;
      }
      pixels, pitch := None, 0;
      return true;
    }
  }

  /** A texture's lock-relevant fields as a value. */
  datatype LockState = LockState(pixelstream: bool, pixels: Option<nat>, pitch: int)

  /** The outcome of lockPixelTexture and the texture afterwards. */
  function LockStep(t: LockState, sdl: LockResult): (r: (bool, LockState))
  {
    if t.pixelstream && t.pixels.None? && sdl.Locked? then (true, t.(pixels := Some(sdl.address), pitch := sdl.rowPitch))
    else (false, t)
  }

  /** The outcome of unlockPixelTexture and the texture afterwards. */
  function UnlockStep(t: LockState): (r: (bool, LockState))
  {
    if t.pixelstream && t.pixels.Some? then (true, t.(pixels := None, pitch := 0)) else (false, t)
  }

  /**
   * Locking succeeds exactly for an unlocked streaming texture SDL agrees to
   * lock, and it leaves the texture locked at the address SDL gave; a failed
   * lock changes nothing.
   */
  lemma LockSpec(t: LockState, sdl: LockResult)
    ensures var (ok, u) := LockStep(t, sdl);
      && (ok <==> t.pixelstream && t.pixels.None? && sdl.Locked?)
      && (ok ==> u.pixels == Some(sdl.address) && u.pitch == sdl.rowPitch && u.pixelstream == t.pixelstream)
      && (!ok ==> u == t)
  {
  }

  /**
   * Unlocking succeeds exactly for a locked streaming texture, and leaves it
   * unlocked with pitch 0; a failed unlock changes nothing.
   */
  lemma UnlockSpec(t: LockState)
    ensures var (ok, u) := UnlockStep(t);
      && (ok <==> t.pixelstream && t.pixels.Some?)
      && (ok ==> u.pixels.None? && u.pitch == 0 && u.pixelstream == t.pixelstream)
      && (!ok ==> u == t)
  {
  }

  /** Locking a locked texture, or unlocking an unlocked one, always fails and changes nothing. */
  lemma NoDoubleTransitions(t: LockState, sdl: LockResult)
    ensures t.pixels.Some? ==> LockStep(t, sdl) == (false, t)
    ensures t.pixels.None? ==> UnlockStep(t) == (false, t)
  {
  }

  /** A successful lock followed by an unlock returns an unlocked texture with pitch 0, and the unlock succeeds. */
  lemma LockThenUnlock(t: LockState, sdl: LockResult)
    requires LockStep(t, sdl).0
    ensures UnlockStep(LockStep(t, sdl).1) == (true, t.(pixels := None, pitch := 0))
  {
  }

  /** A static texture is never locked or unlocked. */
  lemma StaticTextureInert(t: LockState, sdl: LockResult)
    requires !t.pixelstream
    ensures LockStep(t, sdl) == (false, t) && UnlockStep(t) == (false, t)
  {
  }
}
