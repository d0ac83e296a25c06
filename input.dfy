/**
 * The joypad edge detector (input.c): the pad word of this frame and of the previous one, and
 * the queries that compare them under a button mask. Every entry point refuses to run before
 * `input_init` and shows the fatal-error screen instead.
 */
module Input {
  import opened ErrorHandler

  /** The joypad bits of SGDK's joy.h that the game tests. */
  const ButtonUp: bv16 := 0x0001
  const ButtonDown: bv16 := 0x0002
  const ButtonLeft: bv16 := 0x0004
  const ButtonRight: bv16 := 0x0008
  const ButtonB: bv16 := 0x0010
  const ButtonC: bv16 := 0x0020
  const ButtonA: bv16 := 0x0040
  const ButtonStart: bv16 := 0x0080

  /** The answer of an input query, or the error screen the system halted on. */
  datatype Checked<T> = Value(value: T) | Halted(screen: seq<TextAt>)

  /** The error screen of a call before `input_init`, from function `name` at source line `line`. */
  function NotInitialized(name: string, line: nat): seq<TextAt> {
    ErrorScreen("input", name, line, "Not initialized!")
  }

  /** Some button of `mask` is down in `pad`. */
  predicate Down(pad: bv16, mask: bv16) {
    pad & mask != 0
  }

  /** A button of `mask` is down this frame and none of them was down the frame before. */
  predicate Pressed(current: bv16, prev: bv16, mask: bv16) {
    Down(current, mask) && !Down(prev, mask)
  }

  /** No button of `mask` is down this frame and one of them was down the frame before. */
  predicate Released(current: bv16, prev: bv16, mask: bv16) {
    !Down(current, mask) && Down(prev, mask)
  }

  /** A fresh press is a held button. */
  lemma PressedIsDown(current: bv16, prev: bv16, mask: bv16)
    ensures Pressed(current, prev, mask) ==> Down(current, mask)
  {
  }

  /** A mask is never pressed and released in the same frame. */
  lemma PressedNotReleased(current: bv16, prev: bv16, mask: bv16)
    ensures !(Pressed(current, prev, mask) && Released(current, prev, mask))
  {
  }

  /** A pad word that does not change from one frame to the next shows neither edge. */
  lemma SteadyPadHasNoEdges(pad: bv16, mask: bv16)
    ensures !Pressed(pad, pad, mask) && !Released(pad, pad, mask)
  {
  }

  /** A fresh press of a combined mask is a fresh press of one of its parts, and the parts were all up before. */
  lemma PressedUnion(current: bv16, prev: bv16, m1: bv16, m2: bv16)
    ensures Pressed(current, prev, m1 | m2) <==>
              (Pressed(current, prev, m1) || Pressed(current, prev, m2)) && !Down(prev, m1) && !Down(prev, m2)
  {
    MaskUnion(current, m1, m2);
    MaskUnion(prev, m1, m2);
  }

  /** Testing a combined mask tests each part. */
  lemma MaskUnion(pad: bv16, m1: bv16, m2: bv16)
    ensures Down(pad, m1 | m2) <==> Down(pad, m1) || Down(pad, m2)
  {
    assert pad & (m1 | m2) == (pad & m1) | (pad & m2);
  }

  /** A mask with no bit is never down. */
  lemma EmptyMaskNeverDown(pad: bv16)
    ensures !Down(pad, 0)
  {
  }

  /** The joypad state `joy1_input_state` and the `is_input_initialized` flag. */
  class InputState {
    var current: bv16
    var prev: bv16
    var initialized: bool

    /** The zero-initialised statics: both words 0 and not yet initialised. */
    constructor()
      ensures current == 0 && prev == 0 && !initialized
    {
      current := 0;
      prev := 0;
      initialized := false;
    }

    /** input_init: both words cleared and the module marked initialised. */
    method Init()
      modifies this
      ensures current == 0 && prev == 0 && initialized
    {
      current := 0;
      prev := 0;
      initialized := true;
    }

    /**
     * input_update, with `joypad` the word JOY_readJoypad returns this frame: the old current
     * word becomes the previous one. Before initialisation it halts on the error screen.
     */
    method Update(joypad: bv16) returns (r: Checked<()>)
      modifies this
      ensures !old(initialized) ==> r == Halted(NotInitialized("input_update", 25)) && unchanged(this)
      ensures old(initialized) ==> r == Value(()) && prev == old(current) && current == joypad && initialized
    {
      if !initialized {
        var screen := DisplayError("input", "input_update", 25, "Not initialized!");
        return Halted(screen);
      }
      prev := current;
      current := joypad;
      return Value(());
    }

    /** input_is_held: whether a button of `mask` is down this frame. */
    function IsHeld(mask: bv16): (r: Checked<bool>)
      reads this
      ensures r.Value? <==> initialized
      ensures r.Value? ==> (r.value <==> Down(current, mask))
      ensures r.Halted? ==> r.screen == NotInitialized("input_is_held", 35)
    {
      if !initialized then Halted(NotInitialized("input_is_held", 35))
      else Value(current & mask != 0)
    }

    /** input_is_just_pressed: whether a button of `mask` went down this frame. */
    function IsJustPressed(mask: bv16): (r: Checked<bool>)
      reads this
      ensures r.Value? <==> initialized
      ensures r.Value? ==> (r.value <==> Pressed(current, prev, mask))
      ensures r.Halted? ==> r.screen == NotInitialized("input_is_just_pressed", 43)
    {
      if !initialized then Halted(NotInitialized("input_is_just_pressed", 43))
      else Value(current & mask != 0 && prev & mask == 0)
    }

    /** input_is_just_released: whether the buttons of `mask` came up this frame. */
    function IsJustReleased(mask: bv16): (r: Checked<bool>)
      reads this
      ensures r.Value? <==> initialized
      ensures r.Value? ==> (r.value <==> Released(current, prev, mask))
      ensures r.Halted? ==> r.screen == NotInitialized("input_is_just_released", 52)
    {
      if !initialized then Halted(NotInitialized("input_is_just_released", 52))
      else Value(current & mask == 0 && prev & mask != 0)
    }

    /** input_get_current_state: the pad word of this frame. */
    function CurrentState(): (r: Checked<bv16>)
      reads this
      ensures r.Value? <==> initialized
      ensures r.Value? ==> r.value == current
      ensures r.Halted? ==> r.screen == NotInitialized("input_get_current_state", 61)
    {
      if !initialized then Halted(NotInitialized("input_get_current_state", 61))
      else Value(current)
    }
  }

  /**
   * Two updates with the same pad word leave no fresh press: a button held across frames
   * reports just-pressed once, on the first frame.
   */
  method PressReportedOnce(s: InputState, joypad: bv16, mask: bv16)
    requires s.initialized
    modifies s
    ensures s.IsJustPressed(mask) == Value(false)
  {
    var r := s.Update(joypad);
    r := s.Update(joypad);
    SteadyPadHasNoEdges(joypad, mask);
  }
}
