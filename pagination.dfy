/**
 * The page computation of the dialogue engine (`_dialogue_engine_prepare_page`) as functions:
 * greedy word wrap of a NUL-terminated message into at most `MaxDialogueLines` lines of at most
 * `width` characters, starting at a read cursor that moves forward from page to page.
 *
 * The message is a `string` without NUL; the C pointer `text + i` is the index `i`, and
 * `*ptr == '\0'` is `i == |text|`. A line is kept as the span of the message it was copied from.
 */
module Pagination {
  import opened Wrappers
  import opened CStrings

  /** MAX_DIALOGUE_LINES: the number of line buffers. */
  const MaxDialogueLines: nat := 4
  /** MAX_CHARS_PER_LINE: the size of each line buffer, terminator included. */
  const MaxCharsPerLine: nat := 40
  /** DIALOGUE_BOX_CONTENT_CHAR_WIDTH (30 - 2): the width used for every page after the first. */
  const ContentCharWidth: nat := 28
  /** DIALOGUE_BOX_CONTENT_MAX_LINES: the height used for every page after the first. */
  const ContentMaxLines: nat := MaxDialogueLines

  function Min(a: nat, b: nat): nat {
    if a <= b then a else b
  }

  /** A character that ends the scan of a line: the terminator or an explicit newline. */
  predicate IsLineStop(c: char) {
    c == NUL || c == '\n'
  }

  /** A character after a full line that makes word wrapping unnecessary. */
  predicate IsNaturalBreak(c: char) {
    c == NUL || c == '\n' || c == ' '
  }

  /** The break character consumed after a line. */
  predicate IsSeparator(c: char) {
    c == '\n' || c == ' '
  }

  /** The part of the message one line buffer receives. */
  datatype Span = Span(start: nat, len: nat) {
    function End(): nat {
      start + len
    }
  }

  /** The lines of one page, and where the read cursor stands after it. */
  datatype Page = Page(spans: seq<Span>, cursor: nat)

  /** No terminator or newline among the characters `lo` .. `hi - 1`. */
  predicate NoStopIn(text: string, lo: nat, hi: nat) {
    forall i :: lo <= i < hi ==> !IsLineStop(CharAt(text, i))
  }

  /** No space among the characters `lo` .. `hi - 1`. */
  predicate NoSpaceIn(text: string, lo: nat, hi: nat) {
    forall i :: lo <= i < hi ==> CharAt(text, i) != ' '
  }

  /** Only spaces among the characters `lo` .. `hi - 1`, all within the text. */
  predicate SpacesIn(text: string, lo: nat, hi: nat) {
    lo <= hi <= |text| && forall k :: lo <= k < hi ==> text[k] == ' '
  }

  /**
   * The scan loop: the number of characters from `start`, at most `width`, before the first
   * terminator or newline.
   */
  function ScanLength(text: string, start: nat, width: nat): (n: nat)
    ensures n <= width && NoStopIn(text, start, start + n)
    ensures n < width ==> IsLineStop(CharAt(text, start + n))
    ensures start <= |text| ==> start + n <= |text|
    decreases width
  {
    if width == 0 || IsLineStop(CharAt(text, start)) then 0
    else 1 + ScanLength(text, start + 1, width - 1)
  }

  /** The offset of the last space among the first `n` characters from `start`, if there is one. */
  function LastSpace(text: string, start: nat, n: nat): (r: Option<nat>)
    ensures r.Some? ==> r.value < n && CharAt(text, start + r.value) == ' ' &&
                        NoSpaceIn(text, start + r.value + 1, start + n)
    ensures r.None? ==> NoSpaceIn(text, start, start + n)
    decreases n
  {
    if n == 0 then None
    else if CharAt(text, start + n - 1) == ' ' then Some(n - 1)
    else LastSpace(text, start, n - 1)
  }

  /**
   * The length of the line that starts at `start`: the scanned length, shortened to the last
   * space when a full line would split a word and that space is not the line's first character.
   */
  function LineLength(text: string, start: nat, width: nat): (len: nat)
    ensures len <= ScanLength(text, start, width) <= width
    ensures 1 <= width && !IsLineStop(CharAt(text, start)) ==> 1 <= len
  {
    var n := ScanLength(text, start, width);
    if n == width && !IsNaturalBreak(CharAt(text, start + n)) then
      match LastSpace(text, start, n)
      case Some(k) => if 0 < k && k < width then k else n
      case None => n
    else n
  }

  /**
   * Word wrap: a line is cut short of the scanned length only when it is full and followed by
   * a word character, and then at its last space; otherwise the scan stopped at a terminator or
   * newline, the full line is followed by a natural break, or it has no usable space.
   */
  lemma WordWrap(text: string, start: nat, width: nat)
    ensures var len, n := LineLength(text, start, width), ScanLength(text, start, width);
            (len < n ==>
               n == width && !IsNaturalBreak(CharAt(text, start + width)) &&
               0 < len && CharAt(text, start + len) == ' ' && NoSpaceIn(text, start + len + 1, start + width)) &&
            (len == n ==>
               len < width || IsNaturalBreak(CharAt(text, start + width)) || NoSpaceIn(text, start + 1, start + width))
  {
  }

  /** Steps over the break character (one space or newline) that ended a line, if there is one. */
  function AfterSeparator(text: string, i: nat): nat {
    if IsSeparator(CharAt(text, i)) then i + 1 else i
  }

  /** The skip loop for leading spaces: the first position from `i` that does not hold a space. */
  function SkipSpaces(text: string, i: nat): (j: nat)
    requires i <= |text|
    ensures i <= j <= |text| && SpacesIn(text, i, j)
    ensures j == |text| || text[j] != ' '
    decreases |text| - i
  {
    if i < |text| && text[i] == ' ' then SkipSpaces(text, i + 1) else i
  }

  /**
   * Every span lies within `lo` .. `hi`, is at most `width` long and holds no terminator or
   * newline.
   */
  predicate SpansWithin(text: string, spans: seq<Span>, lo: nat, hi: nat, width: nat) {
    forall j :: 0 <= j < |spans| ==>
      lo <= spans[j].start && spans[j].End() <= hi && spans[j].len <= width &&
      NoStopIn(text, spans[j].start, spans[j].End())
  }

  /**
   * The line loop from line slot `idx` on, with the text pointer at `pos`, filling slots below
   * `limit`. Leading spaces are skipped for every slot but the first; the loop stops early when
   * the terminator is reached.
   */
  function FillLines(text: string, pos: nat, width: nat, idx: nat, limit: nat): (f: Page)
    requires NoNul(text) && pos <= |text| && idx <= limit
    ensures pos <= f.cursor <= |text|
    ensures idx + |f.spans| <= limit
    ensures SpansWithin(text, f.spans, pos, f.cursor, width)
    decreases limit - idx
  {
    if idx == limit then Page([], pos)
    else
      var p := if idx > 0 then SkipSpaces(text, pos) else pos;
      if p == |text| then Page([], p)
      else
        var line := Span(p, LineLength(text, p, width));
        var q := AfterSeparator(text, line.End());
        if q == |text| then Page([line], q)
        else Cons(line, FillLines(text, q, width, idx + 1, limit))
  }

  /** A round of the line loop that copies `line` and steps over its separator to `q`. */
  lemma FillLinesLine(text: string, pos: nat, width: nat, idx: nat, limit: nat, line: Span, q: nat)
    requires NoNul(text) && pos <= |text| && idx < limit
    requires line.start == (if idx > 0 then SkipSpaces(text, pos) else pos) && line.start < |text|
    requires line.len == LineLength(text, line.start, width) && q == AfterSeparator(text, line.End())
    ensures q <= |text|
    ensures FillLines(text, pos, width, idx, limit) ==
            if q == |text| then Page([line], q) else Cons(line, FillLines(text, q, width, idx + 1, limit))
  {
  }

  /** A line put in front of the lines of a page. */
  function Cons(line: Span, page: Page): Page {
    Page([line] + page.spans, page.cursor)
  }

  /**
   * One page computed from the read cursor with a `width` x `height` viewport. A cursor at the
   * terminator gives an empty page and leaves the cursor where it is.
   */
  function PreparePage(text: string, cursor: nat, width: nat, height: nat): (page: Page)
    requires NoNul(text) && cursor <= |text|
    ensures cursor <= page.cursor <= |text|
    ensures |page.spans| <= Min(height, MaxDialogueLines)
    ensures SpansWithin(text, page.spans, cursor, page.cursor, width)
    ensures cursor == |text| ==> page == Page([], cursor)
    ensures cursor < |text| && 1 <= height ==> 1 <= |page.spans| && page.spans[0].start == cursor
    ensures page.spans == [] ==> page.cursor == cursor
    ensures cursor < |text| && 1 <= width && 1 <= height ==> cursor < page.cursor
  {
    if cursor == |text| then Page([], cursor)
    else FillLines(text, cursor, width, 0, Min(height, MaxDialogueLines))
  }

  /** The text of one line buffer. */
  function LineText(text: string, s: Span): string
    requires s.End() <= |text|
  {
    text[s.start..s.End()]
  }

  /** "More text remains": the paging indicator after a page. */
  predicate MoreText(text: string, page: Page) {
    page.cursor < |text|
  }

  // ---------------------------------------------------------------------------------------
  // Reconstruction of the source text

  /** The characters dropped between two lines: an optional newline, then spaces only. */
  predicate IsGap(g: string) {
    forall k :: 0 <= k < |g| ==> g[k] == ' ' || (k == 0 && g[k] == '\n')
  }

  /**
   * `text[from..to]` is the lines of `spans`, in order, with a gap before each line and a gap
   * after the last: gluing the lines and the dropped gaps back together gives the text.
   */
  ghost predicate Tiles(text: string, from: nat, spans: seq<Span>, to: nat)
    decreases |spans|
  {
    from <= to <= |text| &&
    if spans == [] then IsGap(text[from..to])
    else
      from <= spans[0].start && spans[0].End() <= to && IsGap(text[from..spans[0].start]) &&
      Tiles(text, spans[0].End(), spans[1..], to)
  }

  /** Where the first gap of a tiling ends. */
  function FirstGapEnd(spans: seq<Span>, to: nat): nat {
    if spans == [] then to else spans[0].start
  }

  /** A single separator (or nothing) in front of a tiling whose first gap is all spaces keeps it a tiling. */
  lemma {:induction false} TilesAfterSeparator(text: string, a: nat, b: nat, spans: seq<Span>, to: nat)
    requires a <= b <= a + 1 && (b == a + 1 ==> b <= |text| && IsSeparator(text[a]))
    requires Tiles(text, b, spans, to)
    requires SpacesIn(text, b, FirstGapEnd(spans, to))
    ensures Tiles(text, a, spans, to)
  {
    var e := FirstGapEnd(spans, to);
    var g := text[a..e];
    forall k | 0 <= k < |g|
      ensures g[k] == ' ' || (k == 0 && g[k] == '\n')
    {
      assert g[k] == text[a + k];
    }
  }

  /** A run of spaces is a gap. */
  lemma SpacesAreGap(text: string, lo: nat, hi: nat)
    requires SpacesIn(text, lo, hi)
    ensures IsGap(text[lo..hi])
  {
    var g := text[lo..hi];
    forall k | 0 <= k < |g|
      ensures g[k] == ' '
    {
      assert g[k] == text[lo + k];
    }
  }

  /** The last line of a non-empty sequence. */
  function Last(spans: seq<Span>): Span
    requires spans != []
  {
    spans[|spans| - 1]
  }

  /**
   * The lines of the line loop from `pos` tile the text up to the new cursor behind a first gap
   * of spaces only, and the line in slot 0 starts right at `pos`.
   */
  ghost predicate LoopTiles(text: string, pos: nat, idx: nat, limit: nat, f: Page) {
    Tiles(text, pos, f.spans, f.cursor) &&
    SpacesIn(text, pos, FirstGapEnd(f.spans, f.cursor)) &&
    (idx == 0 && f.spans != [] ==> f.spans[0].start == pos)
  }

  /** A step of the line loop keeps the tiling: spaces, a line, at most one separator, the rest. */
  lemma LoopTilesCons(text: string, pos: nat, idx: nat, limit: nat, line: Span, q: nat, rest: Page)
    requires SpacesIn(text, pos, line.start) && line.End() <= |text| && (idx == 0 ==> line.start == pos)
    requires q == AfterSeparator(text, line.End()) && q <= |text|
    requires LoopTiles(text, q, idx + 1, limit, rest)
    ensures LoopTiles(text, pos, idx, limit, Cons(line, rest))
  {
    TilesAfterSeparator(text, line.End(), q, rest.spans, rest.cursor);
    SpacesAreGap(text, pos, line.start);
    assert ([line] + rest.spans)[1..] == rest.spans;
  }

  lemma {:induction false} FillTiles(text: string, pos: nat, width: nat, idx: nat, limit: nat)
    requires NoNul(text) && pos <= |text| && idx <= limit
    ensures LoopTiles(text, pos, idx, limit, FillLines(text, pos, width, idx, limit))
    decreases limit - idx
  {
    if idx == limit {
      SpacesAreGap(text, pos, pos);
    } else {
      var p := if idx > 0 then SkipSpaces(text, pos) else pos;
      if p == |text| {
        SpacesAreGap(text, pos, p);
      } else {
        var line := Span(p, LineLength(text, p, width));
        var q := AfterSeparator(text, line.End());
        if q == |text| {
          SpacesAreGap(text, q, q);
          LoopTilesCons(text, pos, idx, limit, line, q, Page([], q));
          assert FillLines(text, pos, width, idx, limit) == Cons(line, Page([], q));
        } else {
          var rest := FillLines(text, q, width, idx + 1, limit);
          FillTiles(text, q, width, idx + 1, limit);
          LoopTilesCons(text, pos, idx, limit, line, q, rest);
          assert FillLines(text, pos, width, idx, limit) == Cons(line, rest);
        }
      }
    }
  }

  /** Every line of the line loop in a slot after the first starts on a character that is not a space. */
  predicate LoopStarts(text: string, pos: nat, idx: nat, limit: nat, f: Page) {
    forall i :: 0 <= i < |f.spans| && (0 < idx || 0 < i) ==>
      f.spans[i].start < |text| && text[f.spans[i].start] != ' '
  }

  lemma LoopStartsCons(text: string, pos: nat, idx: nat, limit: nat, line: Span, q: nat, rest: Page)
    requires 0 < idx ==> line.start < |text| && text[line.start] != ' '
    requires LoopStarts(text, q, idx + 1, limit, rest)
    ensures LoopStarts(text, pos, idx, limit, Cons(line, rest))
  {
    var spans := [line] + rest.spans;
    forall i | 0 < i < |spans|
      ensures spans[i].start < |text| && text[spans[i].start] != ' '
    {
      assert spans[i] == rest.spans[i - 1];
    }
  }

  lemma {:induction false} FillStarts(text: string, pos: nat, width: nat, idx: nat, limit: nat)
    requires NoNul(text) && pos <= |text| && idx <= limit
    ensures LoopStarts(text, pos, idx, limit, FillLines(text, pos, width, idx, limit))
    decreases limit - idx
  {
    if idx == limit {
    } else {
      var p := if idx > 0 then SkipSpaces(text, pos) else pos;
      if p == |text| {
      } else {
        var line := Span(p, LineLength(text, p, width));
        var q := AfterSeparator(text, line.End());
        if q == |text| {
          LoopStartsCons(text, pos, idx, limit, line, q, Page([], q));
          assert FillLines(text, pos, width, idx, limit) == Cons(line, Page([], q));
        } else {
          var rest := FillLines(text, q, width, idx + 1, limit);
          FillStarts(text, q, width, idx + 1, limit);
          LoopStartsCons(text, pos, idx, limit, line, q, rest);
          assert FillLines(text, pos, width, idx, limit) == Cons(line, rest);
        }
      }
    }
  }

  /**
   * When text remains after the line loop, its cursor stands just past the last line and the
   * separator after it, or at `pos` when no slot was left.
   */
  predicate LoopEnd(text: string, pos: nat, idx: nat, limit: nat, f: Page) {
    f.cursor < |text| ==>
      (f.spans == [] && f.cursor == pos && idx == limit) ||
      (f.spans != [] && f.cursor == AfterSeparator(text, Last(f.spans).End()))
  }

  lemma LoopEndCons(text: string, pos: nat, idx: nat, limit: nat, line: Span, q: nat, rest: Page)
    requires q == AfterSeparator(text, line.End())
    requires LoopEnd(text, q, idx + 1, limit, rest)
    requires rest.spans == [] && rest.cursor < |text| ==> rest.cursor == q
    ensures LoopEnd(text, pos, idx, limit, Cons(line, rest))
  {
    if rest.spans != [] {
      assert Last([line] + rest.spans) == Last(rest.spans);
    }
  }

  lemma {:induction false} FillEnd(text: string, pos: nat, width: nat, idx: nat, limit: nat)
    requires NoNul(text) && pos <= |text| && idx <= limit
    ensures LoopEnd(text, pos, idx, limit, FillLines(text, pos, width, idx, limit))
    decreases limit - idx
  {
    if idx == limit {
    } else {
      var p := if idx > 0 then SkipSpaces(text, pos) else pos;
      if p == |text| {
      } else {
        var line := Span(p, LineLength(text, p, width));
        var q := AfterSeparator(text, line.End());
        if q == |text| {
          LoopEndCons(text, pos, idx, limit, line, q, Page([], q));
          assert FillLines(text, pos, width, idx, limit) == Cons(line, Page([], q));
        } else {
          var rest := FillLines(text, q, width, idx + 1, limit);
          FillEnd(text, q, width, idx + 1, limit);
          LoopEndCons(text, pos, idx, limit, line, q, rest);
          assert FillLines(text, pos, width, idx, limit) == Cons(line, rest);
        }
      }
    }
  }
  /**
   * A page reassembles its part of the message: the text from the old cursor to the new one is
   * the page's lines with only gaps (an optional newline, then spaces) dropped between and after
   * them, and the first line starts right at the old cursor.
   */
  lemma PageTiles(text: string, cursor: nat, width: nat, height: nat)
    requires NoNul(text) && cursor <= |text|
    ensures var page := PreparePage(text, cursor, width, height);
            Tiles(text, cursor, page.spans, page.cursor) &&
            (page.spans != [] ==> page.spans[0].start == cursor)
  {
    if cursor < |text| {
      FillTiles(text, cursor, width, 0, Min(height, MaxDialogueLines));
    }
  }

  /**
   * Leading spaces are skipped for every line of a page except its first: each later line starts
   * on a character that is not a space.
   */
  lemma LaterLinesSkipLeadingSpaces(text: string, cursor: nat, width: nat, height: nat)
    requires NoNul(text) && cursor <= |text|
    ensures var page := PreparePage(text, cursor, width, height);
            forall i :: 0 < i < |page.spans| ==> page.spans[i].start < |text| && text[page.spans[i].start] != ' '
  {
    if cursor < |text| {
      var limit := Min(height, MaxDialogueLines);
      FillStarts(text, cursor, width, 0, limit);
      assert LoopStarts(text, cursor, 0, limit, PreparePage(text, cursor, width, height));
    }
  }

  /**
   * When text remains after a page, only the one separator right after its last line was
   * dropped: the next page starts there (or just after a space or newline there).
   */
  lemma PageEndsAtSeparator(text: string, cursor: nat, width: nat, height: nat)
    requires NoNul(text) && cursor < |text| && 1 <= height
    ensures var page := PreparePage(text, cursor, width, height);
            MoreText(text, page) ==>
              page.cursor == AfterSeparator(text, Last(page.spans).End())
  {
    FillEnd(text, cursor, width, 0, Min(height, MaxDialogueLines));
  }

  // ---------------------------------------------------------------------------------------
  // Whole messages

  /** The pages shown after the first one: each confirm press computes one with the fixed 28 x 4 viewport. */
  function PagesFrom(text: string, cursor: nat): (pages: seq<Page>)
    requires NoNul(text) && cursor <= |text|
    ensures |pages| <= |text| - cursor
    ensures pages != [] ==> pages[|pages| - 1].cursor == |text|
    decreases |text| - cursor
  {
    if cursor == |text| then []
    else
      var page := PreparePage(text, cursor, ContentCharWidth, ContentMaxLines);
      [page] + PagesFrom(text, page.cursor)
  }

  /** Every page of a message: the first with the viewport given at start, the rest with 28 x 4. */
  function MessagePages(text: string, width: nat, height: nat): seq<Page>
    requires NoNul(text)
  {
    if text == [] then []
    else
      var first := PreparePage(text, 0, width, height);
      [first] + PagesFrom(text, first.cursor)
  }

  /** All lines of a sequence of pages, in order. */
  function AllSpans(pages: seq<Page>): seq<Span> {
    if pages == [] then [] else pages[0].spans + AllSpans(pages[1..])
  }

  /** Two tilings glue together when the second starts with a line at the joint (or is empty and ends there). */
  lemma {:induction false} TilesConcat(text: string, a: nat, s1: seq<Span>, b: nat, s2: seq<Span>, c: nat)
    requires Tiles(text, a, s1, b) && Tiles(text, b, s2, c)
    requires s2 != [] ==> s2[0].start == b
    requires s2 == [] ==> b == c
    ensures Tiles(text, a, s1 + s2, c)
    decreases |s1|
  {
    if s1 == [] {
      assert s1 + s2 == s2;
    } else {
      TilesConcat(text, s1[0].End(), s1[1..], b, s2, c);
      assert (s1 + s2)[1..] == s1[1..] + s2;
    }
  }

  lemma {:induction false} PagesFromTile(text: string, cursor: nat)
    requires NoNul(text) && cursor <= |text|
    ensures Tiles(text, cursor, AllSpans(PagesFrom(text, cursor)), |text|)
    ensures var pages := PagesFrom(text, cursor);
            AllSpans(pages) != [] ==> AllSpans(pages)[0].start == cursor
    decreases |text| - cursor
  {
    var pages := PagesFrom(text, cursor);
    if cursor < |text| {
      var page := PreparePage(text, cursor, ContentCharWidth, ContentMaxLines);
      PageTiles(text, cursor, ContentCharWidth, ContentMaxLines);
      PagesFromTile(text, page.cursor);
      assert pages[1..] == PagesFrom(text, page.cursor);
      TilesConcat(text, cursor, page.spans, page.cursor, AllSpans(pages[1..]), |text|);
    }
  }

  /**
   * Paging reconstructs the message: across all its pages, the lines in order with the dropped
   * gaps (an optional newline, then spaces) put back give exactly the text, and the pages end
   * with the whole text consumed.
   */
  lemma MessageReassembles(text: string, width: nat, height: nat)
    requires NoNul(text)
    ensures Tiles(text, 0, AllSpans(MessagePages(text, width, height)), |text|)
  {
    var pages := MessagePages(text, width, height);
    if text != [] {
      var first := PreparePage(text, 0, width, height);
      PageTiles(text, 0, width, height);
      PagesFromTile(text, first.cursor);
      assert pages[1..] == PagesFrom(text, first.cursor);
      TilesConcat(text, 0, first.spans, first.cursor, AllSpans(pages[1..]), |text|);
    }
  }

  // ---------------------------------------------------------------------------------------
  // Particular messages

  /** The scan length is the one count that fits its description. */
  lemma ScanLengthIs(text: string, start: nat, width: nat, k: nat)
    requires k <= width && NoStopIn(text, start, start + k)
    requires k < width ==> IsLineStop(CharAt(text, start + k))
    ensures ScanLength(text, start, width) == k
  {
  }

  /**
   * A message of spaces only is not collapsed: line 0 is never space-skipped, so the page is
   * one line holding the first `width` spaces; the spaces after it are skipped by line 1, so
   * nothing remains (with a one-line viewport, only when at most one space is left over).
   */
  lemma SpacesOnlyMessage(text: string, width: nat, height: nat)
    requires 1 <= |text| && 1 <= width && 1 <= height
    requires SpacesIn(text, 0, |text|)
    requires 2 <= height || |text| <= width + 1
    ensures PreparePage(text, 0, width, height) == Page([Span(0, Min(width, |text|))], |text|)
  {
    var n := Min(width, |text|);
    assert NoStopIn(text, 0, n) by {
      forall i | 0 <= i < n ensures !IsLineStop(CharAt(text, i)) {
        assert text[i] == ' ';
      }
    }
    ScanLengthIs(text, 0, width, n);
    assert LineLength(text, 0, width) == n;
    var q := AfterSeparator(text, n);
    var limit := Min(height, MaxDialogueLines);
    if q < |text| {
      assert q == n + 1 && 2 <= limit;
      var j := SkipSpaces(text, q);
      assert j == |text|;
      assert FillLines(text, q, width, 1, limit) == Page([], |text|);
      assert FillLines(text, 0, width, 0, limit) == Cons(Span(0, n), Page([], |text|));
    }
  }

  /** The first text of the dialogue test, here paged as a message in the 28 x 4 content box. */
  const Hello: string := "Hello Dialogue Box!"

  /** "Hello Dialogue Box!" in the 28 x 4 box: one line holding the whole message. */
  lemma HelloPage()
    ensures PreparePage(Hello, 0, 28, 4) == Page([Span(0, 19)], 19)
  {
    assert |Hello| == 19;
    assert NoStopIn(Hello, 0, 19) by {
      forall i | 0 <= i < 19 ensures !IsLineStop(CharAt(Hello, i)) {
        assert Hello[i] != '\n' && Hello[i] != NUL;
      }
    }
    ScanLengthIs(Hello, 0, 28, 19);
    assert LineLength(Hello, 0, 28) == 19;
  }

  /** A message whose first page reaches the terminator is that one page. */
  lemma OnePage(text: string, width: nat, height: nat, first: Page)
    requires NoNul(text) && text != [] && PreparePage(text, 0, width, height) == first && first.cursor == |text|
    ensures MessagePages(text, width, height) == [first]
  {
    assert PagesFrom(text, first.cursor) == [];
  }

  /** A message whose second page, at 28 x 4, reaches the terminator is those two pages. */
  lemma TwoPages(text: string, width: nat, height: nat, first: Page, second: Page)
    requires NoNul(text) && text != [] && PreparePage(text, 0, width, height) == first
    requires first.cursor < |text| && PreparePage(text, first.cursor, ContentCharWidth, ContentMaxLines) == second
    requires second.cursor == |text|
    ensures MessagePages(text, width, height) == [first, second]
  {
    LastPage(text, first.cursor, second);
    FirstPage(text, width, height);
    PairDisplay(first, second);
  }

  /**
   * Two one-page sequences joined are the two-page display. Proved apart from `TwoPages`, where
   * the facts about both pages in scope make the solver's search for this step costly.
   */
  lemma PairDisplay(a: Page, b: Page)
    ensures [a] + [b] == [a, b]
  {
  }

  /** A non-empty message is its first page, in the viewport given at start, then the later pages. */
  lemma FirstPage(text: string, width: nat, height: nat)
    requires NoNul(text) && text != []
    ensures var first := PreparePage(text, 0, width, height);
            MessagePages(text, width, height) == [first] + PagesFrom(text, first.cursor)
  {
  }

  /** From a cursor whose 28 x 4 page reaches the terminator, that page is the only one left. */
  lemma LastPage(text: string, cursor: nat, page: Page)
    requires NoNul(text) && cursor < |text|
    requires PreparePage(text, cursor, ContentCharWidth, ContentMaxLines) == page && page.cursor == |text|
    ensures PagesFrom(text, cursor) == [page]
  {
    assert PagesFrom(text, page.cursor) == [];
  }

  /** ... and no further page: the message is one page long. */
  lemma HelloFitsOnePage(text: string)
    requires text == Hello
    ensures MessagePages(text, 28, 4) == [Page([Span(0, 19)], 19)]
  {
    HelloPage();
    OnePage(text, 28, 4, Page([Span(0, 19)], 19));
  }

  /** The letters message used below: eight single letters separated by single spaces. */
  const Letters: string := "A B C D E F G H"

  lemma LettersFirstPage()
    ensures PreparePage(Letters, 0, 3, 1) == Page([Span(0, 3)], 4)
  {
    assert |Letters| == 15;
    assert NoStopIn(Letters, 0, 3) by {
      forall i | 0 <= i < 3 ensures !IsLineStop(CharAt(Letters, i)) {
        assert Letters[i] != '\n' && Letters[i] != NUL;
      }
    }
    ScanLengthIs(Letters, 0, 3, 3);
    assert LineLength(Letters, 0, 3) == 3;
    assert FillLines(Letters, 4, 3, 1, 1) == Page([], 4);
  }

  lemma LettersSecondPage()
    ensures PreparePage(Letters, 4, 28, 4) == Page([Span(4, 11)], 15)
  {
    assert |Letters| == 15;
    assert NoStopIn(Letters, 4, 15) by {
      forall i | 4 <= i < 15 ensures !IsLineStop(CharAt(Letters, i)) {
        assert Letters[i] != '\n' && Letters[i] != NUL;
      }
    }
    ScanLengthIs(Letters, 4, 28, 11);
    assert LineLength(Letters, 4, 28) == 11;
  }

  /**
   * "A B C D E F G H" opened with a 3 x 1 viewport: the first page is the single line "A B" (a
   * full line followed by a space needs no wrap), and the next confirm press shows the rest,
   * "C D E F G H", with the fixed 28 x 4 viewport: two pages in all.
   */
  lemma LettersInNarrowBox(text: string)
    requires text == Letters
    ensures MessagePages(text, 3, 1) == [Page([Span(0, 3)], 4), Page([Span(4, 11)], 15)]
  {
    LettersFirstPage();
    LettersSecondPage();
    TwoPages(text, 3, 1, Page([Span(0, 3)], 4), Page([Span(4, 11)], 15));
  }

  /** The two lines of the letters message, as text. */
  lemma LettersLines()
    ensures LineText(Letters, Span(0, 3)) == "A B" && LineText(Letters, Span(4, 11)) == "C D E F G H"
  {
  }
}
