/**
 * The palette-cycling test (test_palette_cycle.c): a frame timer that every 15 frames rotates
 * three colours through slots 1-3 of hardware palette 0, which is modelled as an array of 16
 * Mega Drive colour words.
 */
module PaletteCycle {

  const PaletteSize: nat := 16
  const CycleIdx1: nat := 1
  const CycleIdx2: nat := 2
  const CycleIdx3: nat := 3
  const TextColourIdx: nat := 15
  const NumCycleColors: int := 3
  const CycleSpeed: int := 15

  /** SGDK's RGB24_TO_VDPCOLOR: the top three bits of each 8-bit channel, packed as 0BGR. */
  function Rgb24ToVdpColor(rgb: bv32): bv16 {
    (((rgb >> 20) & 0x00E) | ((rgb >> 8) & 0x0E0) | ((rgb << 4) & 0xE00)) as bv16
  }

  /** `cycle_colors`: red, green and blue. */
  const CycleColors: seq<bv16> := [Rgb24ToVdpColor(0xFF0000), Rgb24ToVdpColor(0x00FF00), Rgb24ToVdpColor(0x0000FF)]

  const White: bv16 := Rgb24ToVdpColor(0xFFFFFF)

  /** The colour words the test writes: full red, green and blue, and white. */
  lemma ColourWords()
    ensures CycleColors == [0x000E, 0x00E0, 0x0E00]
    ensures White == 0x0EEE
  {
  }

  /** The cycle step and the frame timer: `current_cycle_step` and `cycle_timer`. */
  datatype Cycle = Cycle(step: int, timer: int) {
    predicate Valid() {
      0 <= step < NumCycleColors && 0 <= timer < CycleSpeed
    }
  }

  /** One `palette_cycle_test_update`: the timer counts frames; on the 15th it restarts and the step advances modulo 3. */
  function Tick(c: Cycle): (d: Cycle)
    requires c.Valid()
    ensures d.Valid()
  {
    var t := c.timer + 1;
    if t >= CycleSpeed then Cycle((c.step + 1) % NumCycleColors, 0) else Cycle(c.step, t)
  }

  /** A frame is a wrap, the one that changes the palette, exactly when the timer was at 14. */
  lemma TickWraps(c: Cycle)
    requires c.Valid()
    ensures Tick(c).timer == 0 <==> c.timer == CycleSpeed - 1
    ensures c.timer < CycleSpeed - 1 ==> Tick(c) == Cycle(c.step, c.timer + 1)
    ensures c.timer == CycleSpeed - 1 ==> Tick(c) == Cycle((c.step + 1) % NumCycleColors, 0)
  {
  }

  /** `n` frames from `c`. */
  function Ticks(c: Cycle, n: nat): (d: Cycle)
    requires c.Valid()
    ensures d.Valid()
  {
    if n == 0 then c else Tick(Ticks(c, n - 1))
  }

  lemma {:induction false} TicksAdd(c: Cycle, a: nat, b: nat)
    requires c.Valid()
    ensures Ticks(c, a + b) == Ticks(Ticks(c, a), b)
    decreases b
  {
    if b != 0 {
      TicksAdd(c, a, b - 1);
      assert a + b - 1 == a + (b - 1);
    }
  }

  /** Within a period the timer counts up and the step holds. */
  lemma {:induction false} TicksWithinPeriod(step: int, j: nat)
    requires 0 <= step < NumCycleColors && j < CycleSpeed
    ensures Ticks(Cycle(step, 0), j) == Cycle(step, j)
  {
    if j != 0 {
      TicksWithinPeriod(step, j - 1);
    }
  }

  /** A full period of 15 frames advances the step by one. */
  lemma OnePeriod(step: int)
    requires 0 <= step < NumCycleColors
    ensures Ticks(Cycle(step, 0), CycleSpeed as nat) == Cycle((step + 1) % NumCycleColors, 0)
  {
    TicksWithinPeriod(step, CycleSpeed as nat - 1);
  }

  /** After 15k frames from the state `init` leaves, the step is k mod 3 and the timer is 0. */
  lemma {:induction false} StepAfterPeriods(k: nat)
    ensures Ticks(Cycle(0, 0), CycleSpeed as nat * k) == Cycle(k % NumCycleColors, 0)
  {
    if k != 0 {
      var before := CycleSpeed as nat * (k - 1);
      StepAfterPeriods(k - 1);
      assert CycleSpeed as nat * k == before + CycleSpeed as nat;
      TicksAdd(Cycle(0, 0), before, CycleSpeed as nat);
      OnePeriod((k - 1) % NumCycleColors);
      NextModulo(k);
    }
  }

  /**
   * One more period moves the step from (k - 1) mod 3 to k mod 3. Proved apart from
   * `StepAfterPeriods`, where the modular arithmetic is costly among the facts about `Ticks`.
   */
  lemma NextModulo(k: nat)
    requires 1 <= k
    ensures ((k - 1) % NumCycleColors + 1) % NumCycleColors == k % NumCycleColors
  {
  }

  /** The colours slots 1, 2 and 3 show at step `step`: the cycle colours rotated by `step`. */
  function Rotation(step: int): (r: seq<bv16>)
    requires 0 <= step
    ensures |r| == 3
  {
    [CycleColors[step % NumCycleColors], CycleColors[(step + 1) % NumCycleColors], CycleColors[(step + 2) % NumCycleColors]]
  }

  /** Every rotation shows the three colours once each. */
  lemma RotationIsPermutation(step: int)
    requires 0 <= step < NumCycleColors
    ensures multiset(Rotation(step)) == multiset(CycleColors)
    ensures Rotation(step)[0] != Rotation(step)[1] && Rotation(step)[1] != Rotation(step)[2] && Rotation(step)[0] != Rotation(step)[2]
  {
    ColourWords();
    var r, g, b := CycleColors[0], CycleColors[1], CycleColors[2];
    assert CycleColors == [r, g, b];
    if step == 0 {
      assert Rotation(step) == [r, g, b];
    } else if step == 1 {
      assert Rotation(step) == [g, b, r];
      assert multiset([g, b, r]) == multiset([r, g, b]);
    } else {
      assert Rotation(step) == [b, r, g];
      assert multiset([b, r, g]) == multiset([r, g, b]);
    }
  }

  /** The rotation at step 0 is the order `init` writes. */
  lemma FirstRotation()
    ensures Rotation(0) == CycleColors
  {
  }

  /** The palette `init` builds from the saved one: the cycle colours in slots 1-3 and white in slot 15. */
  function InitialPalette(base: seq<bv16>): (p: seq<bv16>)
    requires |base| == PaletteSize
    ensures |p| == PaletteSize
  {
    base[CycleIdx1 := CycleColors[0]][CycleIdx2 := CycleColors[1]][CycleIdx3 := CycleColors[2]][TextColourIdx := White]
  }

  /** The palette after a wrap: slots 1-3 take the rotation for the new step, the rest stay. */
  function Recoloured(p: seq<bv16>, step: int): (q: seq<bv16>)
    requires |p| == PaletteSize && 0 <= step
    ensures |q| == PaletteSize
  {
    var r := Rotation(step);
    p[CycleIdx1 := r[0]][CycleIdx2 := r[1]][CycleIdx3 := r[2]]
  }

  /** Only slots 1-3 differ between the base palette and the one `init` builds, besides slot 15. */
  lemma InitialPaletteKeepsOthers(base: seq<bv16>)
    requires |base| == PaletteSize
    ensures var p := InitialPalette(base);
            p[1..4] == Rotation(0) && p[15] == White &&
            (p[0] == base[0]) && forall i :: 4 <= i < 15 ==> p[i] == base[i]
  {
  }

  /** copy of all 16 colour words, as VDP_getPalette, memcpy and VDP_setPalette do. */
  method CopyPalette(dst: array<bv16>, src: array<bv16>)
    requires dst.Length == PaletteSize && src.Length == PaletteSize && dst != src
    modifies dst
    ensures dst[..] == src[..]
  {
    var i := 0;
    while i < PaletteSize
      invariant i <= PaletteSize
      invariant dst[..i] == src[..i]
    {
      dst[i] := src[i];
      i := i + 1;
    }
  }

  /** The statics of the test: the saved palette 0, the step and the timer. */
  class PaletteCycleTest {
    const basePalette0: array<bv16>
    var step: int
    var timer: int

    function State(): Cycle
      reads this
    {
      Cycle(step, timer)
    }

    /**
     * The palette slots 1-3 show the rotation of the current step: the invariant of the test
     * between frames, which `Init` establishes and `Update` keeps, since nothing else writes
     * palette 0 while the test runs.
     */
    ghost predicate Shows(pal0: array<bv16>)
      reads this, pal0
      requires 0 <= step
    {
      pal0.Length == PaletteSize && pal0[1..4] == Rotation(step)
    }

    /** The zero-initialised statics. */
    constructor()
      ensures fresh(basePalette0) && basePalette0.Length == PaletteSize && State() == Cycle(0, 0)
    {
      basePalette0 := new bv16[PaletteSize](_ => 0);
      step := 0;
      timer := 0;
    }

    /**
     * palette_cycle_test_init: saves hardware palette 0, writes a copy with the cycle colours
     * in slots 1-3 and white in slot 15, and restarts the cycle.
     */
    method Init(pal0: array<bv16>)
      requires basePalette0.Length == PaletteSize && pal0.Length == PaletteSize && pal0 != basePalette0
      modifies this, basePalette0, pal0
      ensures basePalette0[..] == old(pal0[..])
      ensures pal0[..] == InitialPalette(old(pal0[..]))
      ensures State() == Cycle(0, 0) && Shows(pal0)
    {
      CopyPalette(basePalette0, pal0);
      var temp := new bv16[PaletteSize];
      CopyPalette(temp, basePalette0);
      temp[CycleIdx1] := CycleColors[0];
      temp[CycleIdx2] := CycleColors[1];
      temp[CycleIdx3] := CycleColors[2];
      temp[TextColourIdx] := White;
      CopyPalette(pal0, temp);
      step := 0;
      timer := 0;
      InitialPaletteKeepsOthers(basePalette0[..]);
    }

    /**
     * palette_cycle_test_update: one frame of the timer; on a wrap the step advances and slots
     * 1-3 are rewritten with the rotation for the new step. It runs in the state `Init` leaves
     * and earlier frames keep, so palette 0 already shows the current step.
     */
    method Update(pal0: array<bv16>)
      requires State().Valid() && pal0.Length == PaletteSize && Shows(pal0)
      modifies this, pal0
      ensures State() == Tick(old(State())) && Shows(pal0)
      ensures timer == 0 ==> pal0[..] == Recoloured(old(pal0[..]), step)
      ensures timer != 0 ==> pal0[..] == old(pal0[..])
    {
      timer := timer + 1;
      if timer >= CycleSpeed {
        timer := 0;
        step := (step + 1) % NumCycleColors;
        pal0[CycleIdx1] := CycleColors[(step + 0) % NumCycleColors];
        pal0[CycleIdx2] := CycleColors[(step + 1) % NumCycleColors];
        pal0[CycleIdx3] := CycleColors[(step + 2) % NumCycleColors];
      }
    }

    /** palette_cycle_test_on_exit: hardware palette 0 gets back the palette saved by `init`. */
    method OnExit(pal0: array<bv16>)
      requires basePalette0.Length == PaletteSize && pal0.Length == PaletteSize && pal0 != basePalette0
      modifies pal0
      ensures pal0[..] == basePalette0[..]
    {
      CopyPalette(pal0, basePalette0);
    }
  }

  /**
   * A whole run of the test: init, any number of frames, exit. Palette 0 ends as it started,
   * and after 15k frames the step is k mod 3.
   */
  method Run(t: PaletteCycleTest, pal0: array<bv16>, frames: nat)
    requires t.basePalette0.Length == PaletteSize && pal0.Length == PaletteSize && pal0 != t.basePalette0
    modifies t, t.basePalette0, pal0
    ensures pal0[..] == old(pal0[..])
    ensures frames % CycleSpeed == 0 ==> t.step == (frames / CycleSpeed) % NumCycleColors
  {
    t.Init(pal0);
    ghost var saved := t.basePalette0[..];
    var n := 0;
    while n < frames
      invariant n <= frames && t.State().Valid() && t.Shows(pal0)
      invariant t.basePalette0[..] == saved
      invariant t.State() == Ticks(Cycle(0, 0), n)
    {
      t.Update(pal0);
      n := n + 1;
    }
    t.OnExit(pal0);
    if frames % CycleSpeed == 0 {
      StepAfterPeriods(frames / CycleSpeed);
      assert CycleSpeed as nat * (frames / CycleSpeed) == frames;
    }
  }
}
