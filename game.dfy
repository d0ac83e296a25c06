/**
 * The frame loop of the game (main.c): the top-level state, the dispatch from a chosen menu
 * entry to a test, the time-driven sub-states of the fade test, and the Start press that
 * leaves every test for the menu. The system clock is the parameter `now`, a 32-bit tick count,
 * and SGDK_TIMER_NORMAL_DIV, the ticks per second, is the parameter `div`.
 */
module Game {
  import opened Wrappers
  import Input
  import Menu
  import Graphics
  import PaletteCycle

  /** `GameState`: the loading screen, the menu, and the four tests the menu reaches. */
  datatype GameState = LoadingScreen | MainMenu | SpriteDemo | TilemapDisplay | Fades | InputDisplay {
    /** One of the four tests that Start leaves for the menu. */
    predicate IsTest() {
      SpriteDemo? || TilemapDisplay? || Fades? || InputDisplay?
    }
  }

  /** `FadeTestSubState`. The two fading states are declared but never entered. */
  datatype FadeSubState = FadeInit | ShowInitial | FadingOut | WaitBlack | FadingIn | FadeDone

  /** What a step of the fade test shows or starts on the hardware. */
  datatype FadeEffect =
    | NoEffect
    | AnnounceText        // "Fade Test. Will start in 2s."
    | FadeOutToBlack      // "Fading Out...", and a 60-frame fade to black
    | FadeInFromBlack     // "Fading In...", and a 60-frame fade back in
    | CompleteText        // "Fade Test Complete. Press Start."

  const U32Limit: int := 0x1_0000_0000

  /** A 32-bit tick count. */
  predicate IsU32(t: int) {
    0 <= t < U32Limit
  }

  /** The unsigned 32-bit difference `now - timer`: the ticks since `timer`, across one wrap of the clock. */
  function Elapsed(now: int, timer: int): (e: int)
    requires IsU32(now) && IsU32(timer)
    ensures IsU32(e)
  {
    (now - timer) % U32Limit
  }

  /** Without a wrap the elapsed time is the plain difference; across a wrap it counts the ticks past 2^32. */
  lemma ElapsedAcrossWrap(now: int, timer: int)
    requires IsU32(now) && IsU32(timer)
    ensures timer <= now ==> Elapsed(now, timer) == now - timer
    ensures now < timer ==> Elapsed(now, timer) == now - timer + U32Limit
  {
  }

  /** The test that the menu entry with index `index` starts; any other index goes back to the menu. */
  function Dispatch(index: int): (s: GameState)
    ensures s.IsTest() <==> 0 <= index < 4
  {
    match index
    case 0 => SpriteDemo
    case 1 => TilemapDisplay
    case 2 => Fades
    case 3 => InputDisplay
    case _ => MainMenu
  }

  /**
   * The entries "5. Scrolling Demo" and "6. XGM Music Test", and the two empty slots, start no
   * test: choosing them shows the menu again.
   */
  lemma UnlistedEntriesStayInMenu()
    ensures forall i :: 4 <= i < Menu.MaxMenuItems ==> Dispatch(i) == MainMenu
    ensures Menu.Items[4] == "5. Scrolling Demo" && Menu.Items[5] == "6. XGM Music Test"
  {
  }

  /** The outcome of one `update_fades_test_state`: the new sub-state, the new timer and what is shown. */
  datatype FadeOutcome = FadeOutcome(sub: FadeSubState, timer: int, effect: FadeEffect)

  /**
   * One step of the fade test at time `now`: the start records the clock; the first screen
   * waits more than two seconds, fades out and records the clock again; the black screen
   * waits more than a second and fades in; the end stays. The fading states do nothing.
   * The fade-out blocks until it is over, so the clock recorded after it is a second
   * reading, `after`, taken when the fade has finished.
   */
  function FadeStep(sub: FadeSubState, timer: int, now: int, after: int, div: int): (o: FadeOutcome)
    requires IsU32(timer) && IsU32(now) && IsU32(after)
    ensures IsU32(o.timer)
  {
    match sub
    case FadeInit => FadeOutcome(ShowInitial, now, AnnounceText)
    case ShowInitial =>
      if Elapsed(now, timer) > 2 * div then FadeOutcome(WaitBlack, after, FadeOutToBlack)
      else FadeOutcome(sub, timer, NoEffect)
    case WaitBlack =>
      if Elapsed(now, timer) > div then FadeOutcome(FadeDone, timer, FadeInFromBlack)
      else FadeOutcome(sub, timer, NoEffect)
    case FadeDone => FadeOutcome(sub, timer, CompleteText)
    case _ => FadeOutcome(sub, timer, NoEffect)
  }

  /** The start always moves on to the first screen, recording the clock. */
  lemma FadeInitMoves(timer: int, now: int, after: int, div: int)
    requires IsU32(timer) && IsU32(now) && IsU32(after)
    ensures FadeStep(FadeInit, timer, now, after, div) == FadeOutcome(ShowInitial, now, AnnounceText)
  {
  }

  /**
   * The first screen fades out exactly when more than two seconds have passed, restarting the
   * timer at the clock read after the fade; otherwise it waits unchanged.
   */
  lemma ShowInitialWaitsTwoSeconds(timer: int, now: int, after: int, div: int)
    requires IsU32(timer) && IsU32(now) && IsU32(after)
    ensures var o := FadeStep(ShowInitial, timer, now, after, div);
            o.sub == WaitBlack <==> Elapsed(now, timer) > 2 * div
    ensures var o := FadeStep(ShowInitial, timer, now, after, div);
            o.sub == WaitBlack ==> o.timer == after && o.effect == FadeOutToBlack
    ensures var o := FadeStep(ShowInitial, timer, now, after, div);
            o.sub != WaitBlack ==> o == FadeOutcome(ShowInitial, timer, NoEffect)
  {
  }

  /** The black screen fades in exactly when more than one second has passed, and otherwise waits unchanged. */
  lemma WaitBlackWaitsOneSecond(timer: int, now: int, after: int, div: int)
    requires IsU32(timer) && IsU32(now) && IsU32(after)
    ensures var o := FadeStep(WaitBlack, timer, now, after, div);
            o.sub == FadeDone <==> Elapsed(now, timer) > div
    ensures var o := FadeStep(WaitBlack, timer, now, after, div);
            o.sub == FadeDone ==> o.effect == FadeInFromBlack
    ensures var o := FadeStep(WaitBlack, timer, now, after, div);
            o.sub != FadeDone ==> o == FadeOutcome(WaitBlack, timer, NoEffect)
  {
  }

  /** The end is never left, whatever the time. */
  lemma DoneIsAbsorbing(timer: int, now: int, after: int, div: int)
    requires IsU32(timer) && IsU32(now) && IsU32(after)
    ensures FadeStep(FadeDone, timer, now, after, div).sub == FadeDone
  {
  }

  /**
   * The one-second black wait counts from the end of the fade-out, not from the frame that
   * started it: two frames at `now` and `later` finish the test exactly when more than a
   * second has passed between the clock read after the fade and `later`.
   */
  lemma BlackWaitCountsFromFadeEnd(timer: int, now: int, after: int, later: int, after2: int, div: int)
    requires IsU32(timer) && IsU32(now) && IsU32(after) && IsU32(later) && IsU32(after2)
    requires Elapsed(now, timer) > 2 * div
    ensures var o := FadeStep(ShowInitial, timer, now, after, div);
            FadeStep(o.sub, o.timer, later, after2, div).sub == FadeDone <==> Elapsed(later, after) > div
  {
    ShowInitialWaitsTwoSeconds(timer, now, after, div);
    WaitBlackWaitsOneSecond(after, later, after2, div);
  }

  /** The order in which the fade test passes through its sub-states. */
  function Rank(sub: FadeSubState): nat {
    match sub
    case FadeInit => 0
    case ShowInitial => 1
    case WaitBlack => 2
    case FadeDone => 3
    case _ => 0
  }

  /** A step never enters a fading state, and moves at most one sub-state on. */
  lemma FadeStepAdvancesByOne(sub: FadeSubState, timer: int, now: int, after: int, div: int)
    requires IsU32(timer) && IsU32(now) && IsU32(after) && !sub.FadingOut? && !sub.FadingIn?
    ensures var o := FadeStep(sub, timer, now, after, div);
            !o.sub.FadingOut? && !o.sub.FadingIn? && Rank(sub) <= Rank(o.sub) <= Rank(sub) + 1
  {
  }

  /** The two clock readings of one frame: at the start of the step, and after a fade it ran. */
  datatype Readings = Readings(now: int, after: int)

  predicate AllU32(times: seq<Readings>) {
    forall i :: 0 <= i < |times| ==> IsU32(times[i].now) && IsU32(times[i].after)
  }

  /** The sub-state and timer after a step at each frame's readings of `times`, in order. */
  function FadeRun(sub: FadeSubState, timer: int, times: seq<Readings>, div: int): (o: FadeOutcome)
    requires IsU32(timer) && AllU32(times)
    ensures IsU32(o.timer)
    decreases |times|
  {
    if times == [] then FadeOutcome(sub, timer, NoEffect)
    else
      var o := FadeStep(sub, timer, times[0].now, times[0].after, div);
      FadeRun(o.sub, o.timer, times[1..], div)
  }

  /**
   * However the clock runs, the fade test never enters a fading state and needs one frame per
   * sub-state it passes: the end is at least three frames after the start.
   */
  lemma {:induction false} FadeRunProgress(sub: FadeSubState, timer: int, times: seq<Readings>, div: int)
    requires IsU32(timer) && AllU32(times)
    requires !sub.FadingOut? && !sub.FadingIn?
    ensures var o := FadeRun(sub, timer, times, div);
            !o.sub.FadingOut? && !o.sub.FadingIn? && Rank(sub) <= Rank(o.sub) <= Rank(sub) + |times|
    decreases |times|
  {
    if times != [] {
      var o := FadeStep(sub, timer, times[0].now, times[0].after, div);
      FadeStepAdvancesByOne(sub, timer, times[0].now, times[0].after, div);
      FadeRunProgress(o.sub, o.timer, times[1..], div);
    }
  }

  /** The fade test's palette 0: dark grey, red, green, blue, and dark grey in the other twelve slots. */
  function FadeTestPalette(): (p: seq<bv16>)
    ensures |p| == PaletteCycle.PaletteSize
  {
    var grey := PaletteCycle.Rgb24ToVdpColor(0x222222);
    seq(16, i requires 0 <= i < 16 => if 1 <= i <= 3 then PaletteCycle.CycleColors[i - 1] else grey)
  }

  /** Slots 1-3 are the three full colours of the palette test, every other slot the grey background 0x222. */
  lemma FadeTestPaletteColours()
    ensures FadeTestPalette()[1..4] == PaletteCycle.CycleColors
    ensures forall i :: 0 <= i < 16 && !(1 <= i <= 3) ==> FadeTestPalette()[i] == 0x0222
  {
  }

  /** The statics of main.c, and the modules whose state its frame loop drives. */
  class MainLoop {
    var state: GameState
    var fadeSub: FadeSubState
    var fadeTimer: int
    /** `fade_test_palette`. */
    const fadePalette: array<bv16>
    const menu: Menu.MenuState
    const player: Graphics.Player
    /** Background plane A, and SGDK's TILE_USER_INDEX. */
    const planeA: array2<int>
    const userIndex: int
    /** SGDK_TIMER_NORMAL_DIV: clock ticks per second. */
    const div: int

    ghost predicate Valid()
      reads this, menu, player
    {
      menu.State().Valid() && player.Valid() && IsU32(fadeTimer) && fadePalette.Length == PaletteCycle.PaletteSize &&
      Graphics.MapHeight <= planeA.Length0 && Graphics.MapWidth <= planeA.Length1
    }

    /** The state after `main`'s set-up: the loading screen first. */
    constructor(planeA: array2<int>, userIndex: int, div: int)
      requires Graphics.MapHeight <= planeA.Length0 && Graphics.MapWidth <= planeA.Length1
      ensures Valid() && state == LoadingScreen && menu.State() == Menu.Initial
      ensures this.planeA == planeA && this.userIndex == userIndex && this.div == div
      ensures fresh(menu) && fresh(player) && fresh(fadePalette)
    {
      state := LoadingScreen;
      fadeSub := FadeInit;
      fadeTimer := 0;
      fadePalette := new bv16[16](_ => 0);
      menu := new Menu.MenuState();
      player := new Graphics.Player();
      this.planeA := planeA;
      this.userIndex := userIndex;
      this.div := div;
    }

    /** go_to_menu_state: the menu set up afresh and shown. */
    method GoToMenuState()
      requires Valid()
      modifies this, menu
      ensures Valid() && state == MainMenu && menu.State() == Menu.Initial
      ensures fadeSub == old(fadeSub) && fadeTimer == old(fadeTimer)
    {
      var screen := menu.Init();
      state := MainMenu;
    }

    /** return_to_menu: leaving a test; the sprites and planes are cleared and the menu comes back. */
    method ReturnToMenu()
      requires Valid()
      modifies this, menu
      ensures Valid() && state == MainMenu && menu.State() == Menu.Initial
      ensures fadeSub == old(fadeSub) && fadeTimer == old(fadeTimer)
    {
      GoToMenuState();
    }

    /** init_fades_test_state: the test palette built and the fade test set at its start. */
    method InitFadesTestState()
      requires Valid()
      modifies this, fadePalette
      ensures Valid() && state == Fades && fadeSub == FadeInit && fadeTimer == old(fadeTimer)
      ensures fadePalette[..] == FadeTestPalette()
    {
      fadePalette[0] := PaletteCycle.Rgb24ToVdpColor(0x222222);
      fadePalette[1] := PaletteCycle.Rgb24ToVdpColor(0xFF0000);
      fadePalette[2] := PaletteCycle.Rgb24ToVdpColor(0x00FF00);
      fadePalette[3] := PaletteCycle.Rgb24ToVdpColor(0x0000FF);
      var i := 4;
      while i < 16
        invariant 4 <= i <= 16
        invariant forall k :: 0 <= k < i ==> fadePalette[k] == FadeTestPalette()[k]
        invariant unchanged(this)
      {
        fadePalette[i] := fadePalette[0];
        i := i + 1;
      }
      fadeSub := FadeInit;
      state := Fades;
    }

    /** init_tilemap_display_state: the example map drawn on plane A. */
    method InitTilemapDisplayState()
      requires Valid()
      modifies this, planeA
      ensures Valid() && state == TilemapDisplay && fadeSub == old(fadeSub) && fadeTimer == old(fadeTimer)
      ensures Graphics.ShowsMap(planeA, userIndex)
    {
      Graphics.DisplaySimpleTilemap(planeA, userIndex);
      state := TilemapDisplay;
    }

    /**
     * update_menu_state, with the fresh presses of Up, Down and Start-or-A: the menu handles
     * them; a chosen entry is cleared and starts its test, or shows the menu again.
     */
    method UpdateMenuState(up: bool, down: bool, confirm: bool)
      requires Valid()
      modifies this, menu, fadePalette, planeA
      ensures Valid()
      ensures var t := Menu.Next(old(menu.State()), up, down, confirm);
              t.action == Menu.NoAction ==> state == old(state) && menu.State() == t
      ensures var t := Menu.Next(old(menu.State()), up, down, confirm);
              t.action != Menu.NoAction ==>
                state == Dispatch(t.action) &&
                menu.State() == (if state == MainMenu then Menu.Initial else Menu.Selection(t.index, Menu.NoAction))
      ensures state == Fades && old(state) != Fades ==> fadeSub == FadeInit
      ensures state == TilemapDisplay && old(state) != TilemapDisplay ==> Graphics.ShowsMap(planeA, userIndex)
    {
      var redrawn := menu.HandleInput(up, down, confirm);
      var selected := menu.SelectedActionId();
      if selected != Menu.NoAction {
        menu.ResetActionId();
        StartTest(selected);
      }
    }

    /** The switch of `update_menu_state` over the chosen entry. */
    method StartTest(index: int)
      requires Valid() && 0 <= index < Menu.MaxMenuItems && menu.State().action == Menu.NoAction
      modifies this, menu, fadePalette, planeA
      ensures Valid() && state == Dispatch(index)
      ensures menu.State() == if state == MainMenu then Menu.Initial else old(menu.State())
      ensures state == Fades ==> fadeSub == FadeInit
      ensures state == TilemapDisplay ==> Graphics.ShowsMap(planeA, userIndex)
    {
      match index
      case 0 =>
        state := SpriteDemo;
      case 1 =>
        InitTilemapDisplayState();
      case 2 =>
        InitFadesTestState();
      case 3 =>
        state := InputDisplay;
      case _ =>
        GoToMenuState();
    }

    /**
     * update_fades_test_state at time `now`, with `after` the clock read once a fade-out this
     * frame has finished and `start` the Start press of this frame.
     */
    method UpdateFadesTestState(now: int, after: int, start: bool) returns (effect: FadeEffect)
      requires Valid() && IsU32(now) && IsU32(after) && state == Fades
      modifies this, menu
      ensures Valid()
      ensures FadeOutcome(fadeSub, fadeTimer, effect) == FadeStep(old(fadeSub), old(fadeTimer), now, after, div)
      ensures start ==> state == MainMenu && menu.State() == Menu.Initial
      ensures !start ==> state == Fades && menu.State() == old(menu.State())
    {
      effect := NoEffect;
      match fadeSub {
      case FadeInit =>
        effect := AnnounceText;
        fadeTimer := now;
        fadeSub := ShowInitial;
      case ShowInitial =>
        if Elapsed(now, fadeTimer) > 2 * div {
          effect := FadeOutToBlack;
          fadeTimer := after;
          fadeSub := WaitBlack;
        }
      case WaitBlack =>
        if Elapsed(now, fadeTimer) > div {
          effect := FadeInFromBlack;
          fadeSub := FadeDone;
        }
      case FadeDone =>
        effect := CompleteText;
      case _ =>
      }
      if start {
        ReturnToMenu();
      }
    }

    /**
     * One pass of the frame loop in `main`, with `current` and `prev` the pad words of this
     * frame and the one before, `now` the clock and `after` the clock once a fade-out of this
     * frame has finished: the current state's update, and a Start
     * press in a test returns to the menu. The loading screen's wait is not modelled; it ends
     * in the menu.
     */
    method Frame(current: bv16, prev: bv16, now: int, after: int)
      requires Valid() && IsU32(now) && IsU32(after)
      modifies this, menu, player, fadePalette, planeA
      ensures Valid()
      ensures old(state) == LoadingScreen ==> state == MainMenu && menu.State() == Menu.Initial
      ensures old(state).IsTest() && Input.Pressed(current, prev, Input.ButtonStart) ==>
                state == MainMenu && menu.State() == Menu.Initial
      ensures old(state).IsTest() && !Input.Pressed(current, prev, Input.ButtonStart) ==> state == old(state)
      ensures old(state) == MainMenu ==>
                var t := Menu.Next(old(menu.State()), Input.Pressed(current, prev, Input.ButtonUp),
                                   Input.Pressed(current, prev, Input.ButtonDown),
                                   Input.Pressed(current, prev, Input.ButtonStart | Input.ButtonA));
                state == (if t.action == Menu.NoAction then MainMenu else Dispatch(t.action))
      ensures old(state) == SpriteDemo ==>
                player.x == Graphics.MoveAxis(old(player.x), Input.Down(current, Input.ButtonLeft),
                                              Input.Down(current, Input.ButtonRight), Graphics.MaxPlayerX) &&
                player.y == Graphics.MoveAxis(old(player.y), Input.Down(current, Input.ButtonUp),
                                              Input.Down(current, Input.ButtonDown), Graphics.MaxPlayerY)
      ensures old(state) == Fades ==>
                var o := FadeStep(old(fadeSub), old(fadeTimer), now, after, div);
                fadeSub == o.sub && fadeTimer == o.timer
    {
      var start := Input.Pressed(current, prev, Input.ButtonStart);
      match state
      case LoadingScreen =>
        GoToMenuState();
      case MainMenu =>
        UpdateMenuState(Input.Pressed(current, prev, Input.ButtonUp), Input.Pressed(current, prev, Input.ButtonDown),
                        Input.Pressed(current, prev, Input.ButtonStart | Input.ButtonA));
      case SpriteDemo =>
        var ping := player.Update(Input.Down(current, Input.ButtonLeft), Input.Down(current, Input.ButtonRight),
                                  Input.Down(current, Input.ButtonUp), Input.Down(current, Input.ButtonDown),
                                  Input.Pressed(current, prev, Input.ButtonA));
        if start {
          ReturnToMenu();
        }
      case TilemapDisplay =>
        if start {
          ReturnToMenu();
        }
      case Fades =>
        var effect := UpdateFadesTestState(now, after, start);
      case InputDisplay =>
        if start {
          ReturnToMenu();
        }
    }
  }
}
