/**
 * The main menu (menu.c): a selection cursor over eight entries that wraps at both ends, an
 * action id that latches the selection on Start or A until the game loop consumes it, and the
 * text lines the menu draws.
 */
module Menu {
  import opened Wrappers
  import opened CStrings
  import opened ErrorHandler

  const MaxMenuItems: int := 8

  /** `selected_action_id` when no entry has been chosen. */
  const NoAction: int := -1

  const MenuStartX: nat := 5
  const MenuStartY: nat := 8

  const MenuCursor: string := "> "
  const MenuNoCursor: string := "  "

  const HelpText: string := "Use D-Pad Up/Down, Start/A to select."

  /**
   * `menu_items` as written: eight slots with six initialisers, so the last two slots are
   * NULL pointers.
   */
  const ItemsAsWritten: seq<Option<string>> := [
    Some("1. Show Sprite Demo"),
    Some("2. Show Tilemap"),
    Some("3. Test Fades"),
    Some("4. Test Inputs"),
    Some("5. Scrolling Demo"),
    Some("6. XGM Music Test"),
    None,
    None
  ]

  /** `menu_items` with the two uninitialised slots read as empty entries. */
  const Items: seq<string> := [
    "1. Show Sprite Demo",
    "2. Show Tilemap",
    "3. Test Fades",
    "4. Test Inputs",
    "5. Scrolling Demo",
    "6. XGM Music Test",
    "",
    ""
  ]

  /** The cursor and the pending action: `current_selection` and `selected_action_id`. */
  datatype Selection = Selection(index: int, action: int) {
    /** The selection is an entry, and a pending action is an entry too. */
    predicate Valid() {
      0 <= index < MaxMenuItems && (action == NoAction || 0 <= action < MaxMenuItems)
    }
  }

  /** The menu after `menu_init`. */
  const Initial: Selection := Selection(0, NoAction)

  /**
   * One call of `menu_handle_input` with the fresh presses of this frame: nothing while an
   * action is pending; otherwise Up, else Down, else Start or A, in that order of priority.
   */
  function Next(s: Selection, up: bool, down: bool, confirm: bool): (t: Selection)
    requires s.Valid()
    ensures t.Valid()
  {
    if s.action != NoAction then s
    else if up then Selection(if s.index - 1 < 0 then MaxMenuItems - 1 else s.index - 1, s.action)
    else if down then Selection(if s.index + 1 >= MaxMenuItems then 0 else s.index + 1, s.action)
    else if confirm then Selection(s.index, s.index)
    else s
  }

  /** Up moves the cursor one entry back and wraps from the first entry to the last. */
  lemma UpWraps(s: Selection, down: bool, confirm: bool)
    requires s.Valid() && s.action == NoAction
    ensures var t := Next(s, true, down, confirm);
            t.action == NoAction && t.index == (s.index + MaxMenuItems - 1) % MaxMenuItems
  {
  }

  /** Down moves the cursor one entry forward and wraps from the last entry to the first. */
  lemma DownWraps(s: Selection, confirm: bool)
    requires s.Valid() && s.action == NoAction
    ensures var t := Next(s, false, true, confirm);
            t.action == NoAction && t.index == (s.index + 1) % MaxMenuItems
  {
  }

  /** Up then Down, or Down then Up, brings the cursor back where it was. */
  lemma UpDownInverse(s: Selection)
    requires s.Valid() && s.action == NoAction
    ensures Next(Next(s, true, false, false), false, true, false) == s
    ensures Next(Next(s, false, true, false), true, false, false) == s
  {
  }

  /** Start or A latches the selected entry as the action, and only when nothing else is pressed. */
  lemma ConfirmLatches(s: Selection, up: bool, down: bool, confirm: bool)
    requires s.Valid() && s.action == NoAction
    ensures var t := Next(s, up, down, confirm);
            t.action != NoAction <==> !up && !down && confirm
    ensures var t := Next(s, up, down, confirm);
            t.action != NoAction ==> t.action == t.index == s.index
  {
  }

  /** While an action is pending, no input changes anything. */
  lemma PendingIgnoresInput(s: Selection, up: bool, down: bool, confirm: bool)
    requires s.Valid() && s.action != NoAction
    ensures Next(s, up, down, confirm) == s
  {
  }

  /** A call moves the cursor by at most one entry, modulo the wrap, and does at most one thing. */
  lemma OneActionPerCall(s: Selection, up: bool, down: bool, confirm: bool)
    requires s.Valid()
    ensures var t := Next(s, up, down, confirm);
            t == s ||
            (t.index == (s.index + MaxMenuItems - 1) % MaxMenuItems && t.action == s.action) ||
            (t.index == (s.index + 1) % MaxMenuItems && t.action == s.action) ||
            (t.index == s.index && t.action == s.index)
  {
  }

  /** The text `menu_draw` builds for entry `i`: the cursor or two spaces, then the entry. */
  function MenuLine(selection: int, i: nat): (line: string)
    requires i < |Items|
    ensures |line| >= 2
    ensures line[..2] == MenuCursor <==> i == selection
    ensures line[2..] == Items[i]
  {
    (if i == selection then MenuCursor else MenuNoCursor) + Items[i]
  }

  /** What `menu_draw` shows: the eight entry lines from row 8 down, then the help line two rows below. */
  function MenuScreen(selection: int): seq<TextAt> {
    seq(MaxMenuItems, i requires 0 <= i < MaxMenuItems => TextAt(MenuStartX, MenuStartY + i, MenuLine(selection, i))) +
    [TextAt(MenuStartX, MenuStartY + MaxMenuItems + 2, HelpText)]
  }

  /** Exactly one entry line of the menu carries the cursor: the selected one. */
  lemma OneCursorLine(selection: int)
    requires 0 <= selection < MaxMenuItems
    ensures var screen := MenuScreen(selection);
            forall i :: 0 <= i < MaxMenuItems ==> (screen[i].text[..2] == MenuCursor <==> i == selection)
  {
  }

  /** Every entry line fits the 40-character `buffer` with its terminator. */
  lemma MenuLinesFit(selection: int)
    ensures forall i :: 0 <= i < MaxMenuItems ==> |MenuLine(selection, i)| < 40
  {
  }

  /** Entry `i` of `menu_draw` as written: the strcat of a NULL entry has no defined result. */
  function MenuLineAsWritten(selection: int, i: nat): (line: Option<string>)
    requires i < |ItemsAsWritten|
    ensures line.Some? <==> ItemsAsWritten[i].Some?
  {
    match ItemsAsWritten[i]
    case Some(item) => Some((if i == selection then MenuCursor else MenuNoCursor) + item)
    case None => None
  }

  /** `menu_draw` as written reaches the two NULL entries on every call, whatever the selection. */
  lemma NullEntriesDrawn(selection: int)
    ensures MenuLineAsWritten(selection, 6).None? && MenuLineAsWritten(selection, 7).None?
    ensures forall i :: 0 <= i < 6 ==> MenuLineAsWritten(selection, i) == Some(MenuLine(selection, i))
  {
  }

  /** The statics of menu.c. */
  class MenuState {
    var selection: int
    var actionId: int

    function State(): Selection
      reads this
    {
      Selection(selection, actionId)
    }

    /** The static initialisers: the first entry selected and no action. */
    constructor()
      ensures State() == Initial
    {
      selection := 0;
      actionId := NoAction;
    }

    /** menu_init: the first entry selected, no action, and the menu drawn. */
    method Init() returns (screen: seq<TextAt>)
      modifies this
      ensures State() == Initial && screen == MenuScreen(0)
    {
      selection := 0;
      actionId := NoAction;
      screen := Draw();
    }

    /**
     * menu_handle_input, with `up`, `down` and `confirm` the fresh presses of Up, Down and
     * Start-or-A this frame. A cursor move redraws the menu.
     */
    method HandleInput(up: bool, down: bool, confirm: bool) returns (redrawn: Option<seq<TextAt>>)
      requires State().Valid()
      modifies this
      ensures State() == Next(old(State()), up, down, confirm)
      ensures redrawn.Some? <==> old(actionId) == NoAction && (up || down)
      ensures redrawn.Some? ==> redrawn.value == MenuScreen(selection)
    {
      redrawn := None;
      if actionId != NoAction {
        return;
      }
      if up {
        selection := selection - 1;
        if selection < 0 {
          selection := MaxMenuItems - 1;
        }
        var screen := Draw();
        redrawn := Some(screen);
      } else if down {
        selection := selection + 1;
        if selection >= MaxMenuItems {
          selection := 0;
        }
        var screen := Draw();
        redrawn := Some(screen);
      } else if confirm {
        actionId := selection;
      }
    }

    /** menu_draw: each entry line built in a 40-character buffer with strcpy and strcat, then the help line. */
    method Draw() returns (screen: seq<TextAt>)
      ensures screen == MenuScreen(selection)
    {
      var buffer := new char[40];
      screen := [];
      var i := 0;
      while i < MaxMenuItems
        invariant 0 <= i <= MaxMenuItems && |screen| == i
        invariant forall k :: 0 <= k < i ==> screen[k] == TextAt(MenuStartX, MenuStartY + k, MenuLine(selection, k))
      {
        var line := EntryLine(buffer, i);
        screen := screen + [TextAt(MenuStartX, MenuStartY + i, line)];
        i := i + 1;
      }
      screen := screen + [TextAt(MenuStartX, MenuStartY + MaxMenuItems + 2, HelpText)];
      assert screen[..MaxMenuItems] == MenuScreen(selection)[..MaxMenuItems];
    }

    /** The body of the drawing loop for entry `i`: the prefix by strcpy, the entry by strcat. */
    method EntryLine(buffer: array<char>, i: nat) returns (line: string)
      requires i < MaxMenuItems && buffer.Length == 40
      modifies buffer
      ensures line == MenuLine(selection, i)
    {
      var prefix := if i == selection then MenuCursor else MenuNoCursor;
      StrCpy(buffer, prefix);
      StrCat(buffer, Items[i]);
      line := CStr(buffer[..]);
    }

    /** menu_get_selected_action_id: the pending action, or -1. */
    function SelectedActionId(): (id: int)
      reads this
      requires State().Valid()
      ensures id == NoAction || 0 <= id < MaxMenuItems
      ensures id == actionId
    {
      actionId
    }

    /** menu_reset_action_id: no action pending; the selection stays. */
    method ResetActionId()
      modifies this
      ensures State() == Selection(old(selection), NoAction)
    {
      actionId := NoAction;
    }
  }
}
