/**
 * The dialogue engine state (`DialogueState`) and its operations: init, start a message, turn
 * pages on a confirm press, and report whether a dialogue is on screen. The state is one object
 * whose fields the operations update in place; the page computation is the line loop of
 * `_dialogue_engine_prepare_page`, proved to produce the page described by `Pagination`.
 */
module DialogueEngine {
  import opened Wrappers
  import opened CStrings
  import opened Pagination

  /** Every line lies within the text. */
  predicate Within(text: string, spans: seq<Span>) {
    forall j :: 0 <= j < |spans| ==> spans[j].End() <= |text|
  }

  /** Buffer `j` after the lines `spans` have been copied into cleared buffers: line `j`, or empty. */
  function Slot(text: string, spans: seq<Span>, j: nat): string
    requires Within(text, spans)
  {
    if j < |spans| then LineText(text, spans[j]) else ""
  }

  /** The four buffers after the lines `spans` have been copied into cleared buffers. */
  function Copied(text: string, spans: seq<Span>): seq<string>
    requires Within(text, spans)
  {
    [Slot(text, spans, 0), Slot(text, spans, 1), Slot(text, spans, 2), Slot(text, spans, 3)]
  }

  /** The four buffers showing a page: its lines, then empty buffers. */
  function PageBuffers(text: string, page: Page): seq<string>
    requires Within(text, page.spans)
  {
    Copied(text, page.spans)
  }

  /** Four empty buffers. */
  const NoLines: seq<string> := ["", "", "", ""]

  /** Copying one more line into the next buffer. */
  lemma CopiedGrow(text: string, done: seq<Span>, s: Span, before: seq<string>, after: seq<string>)
    requires |done| < MaxDialogueLines && Within(text, done) && s.End() <= |text|
    requires before == Copied(text, done) && after == before[|done| := LineText(text, s)]
    ensures Within(text, done + [s]) && after == Copied(text, done + [s])
  {
    var grown := done + [s];
    assert forall j :: 0 <= j < |done| ==> grown[j] == done[j];
    assert grown[|done|] == s;
    assert Within(text, grown);
    assert after[0] == Slot(text, grown, 0);
    assert after[1] == Slot(text, grown, 1);
    assert after[2] == Slot(text, grown, 2);
    assert after[3] == Slot(text, grown, 3);
  }

  /**
   * The scan loop and the word-wrap decision for the line that starts at `p`: the number of
   * characters to copy and the position where the line ends.
   */
  method MeasureLine(text: string, p: nat, width: nat) returns (len: nat, lineEnd: nat)
    requires NoNul(text) && p <= |text|
    ensures len == LineLength(text, p, width) && lineEnd == p + len
    ensures len <= width && lineEnd <= |text|
  {
    len := 0;
    lineEnd := p;
    var lastSpace: Option<nat> := None;
    var c := 0;
    while c < width
      invariant c <= width && len == c && lineEnd == p + c
      invariant NoStopIn(text, p, p + c)
      invariant lastSpace == LastSpace(text, p, c)
    {
      if CharAt(text, p + c) == NUL {
        lineEnd := p + c;
        len := c;
        break;
      }
      if CharAt(text, p + c) == '\n' {
        lineEnd := p + c;
        len := c;
        break;
      }
      if CharAt(text, p + c) == ' ' {
        lastSpace := Some(c);
      }
      lineEnd := p + c + 1;
      len := c + 1;
      c := c + 1;
    }
    ScanLengthIs(text, p, width, len);
    if len == width && CharAt(text, lineEnd) != NUL && CharAt(text, lineEnd) != '\n' && CharAt(text, lineEnd) != ' ' {
      if lastSpace.Some? && 0 < lastSpace.value && lastSpace.value < width {
        lineEnd := p + lastSpace.value;
        len := lastSpace.value;
      }
    }
  }

  /** The leading-space skip loop: the first position from `p` that does not hold a space. */
  method SkipLeadingSpaces(text: string, p: nat) returns (q: nat)
    requires NoNul(text) && p <= |text|
    ensures q == SkipSpaces(text, p)
  {
    q := p;
    while CharAt(text, q) == ' ' && CharAt(text, q) != NUL
      invariant p <= q <= |text| && SkipSpaces(text, q) == SkipSpaces(text, p)
      decreases |text| - q
    {
      q := q + 1;
    }
  }

  /**
   * The line loop from slot `idx` with the text pointer at `pos`, after the lines `done` have
   * been copied: the page it ends with. This is `FillLines` with the copied lines carried along,
   * the shape in which the loop of `_dialogue_engine_prepare_page` computes it.
   */
  ghost function LoopFrom(text: string, pos: nat, width: nat, idx: nat, limit: nat, done: seq<Span>): Page
    requires NoNul(text) && pos <= |text| && idx <= limit
    decreases limit - idx
  {
    if idx == limit then Page(done, pos)
    else
      var p := if idx > 0 then SkipSpaces(text, pos) else pos;
      if p == |text| then Page(done, p)
      else
        var line := Span(p, LineLength(text, p, width));
        var q := AfterSeparator(text, line.End());
        if q == |text| then Page(done + [line], q)
        else LoopFrom(text, q, width, idx + 1, limit, done + [line])
  }

  /** The loop computes the page of `FillLines`, after the lines already copied. */
  lemma {:induction false} LoopFromFill(text: string, pos: nat, width: nat, idx: nat, limit: nat, done: seq<Span>)
    requires NoNul(text) && pos <= |text| && idx <= limit
    ensures var f := FillLines(text, pos, width, idx, limit);
            LoopFrom(text, pos, width, idx, limit, done) == Page(done + f.spans, f.cursor)
    decreases limit - idx
  {
    if idx == limit {
      assert done + [] == done;
    } else {
      var p := if idx > 0 then SkipSpaces(text, pos) else pos;
      if p == |text| {
        assert done + [] == done;
      } else {
        var line := Span(p, LineLength(text, p, width));
        var q := AfterSeparator(text, line.End());
        FillLinesLine(text, pos, width, idx, limit, line, q);
        LoopLine(text, pos, width, idx, limit, done, p);
        if q < |text| {
          var rest := FillLines(text, q, width, idx + 1, limit);
          LoopFromFill(text, q, width, idx + 1, limit, done + [line]);
          AppendAssoc(done, [line], rest.spans);
        }
      }
    }
  }

  /** The lines of a page lie within the message, and there are at most four of them. */
  lemma PageWithin(text: string, cursor: nat, width: nat, height: nat)
    requires NoNul(text) && cursor <= |text|
    ensures var page := Pagination.PreparePage(text, cursor, width, height);
            Within(text, page.spans) && |page.spans| <= MaxDialogueLines
  {
  }

  /**
   * Regrouping the lines of a page. Proved apart from `LoopFromFill`, where the facts about the
   * loop in scope make the solver's search for this step costly.
   */
  lemma AppendAssoc(a: seq<Span>, b: seq<Span>, c: seq<Span>)
    ensures (a + b) + c == a + (b + c)
  {
  }

  /** The line loop ends, or reaches the terminator after the space skip, with no line added. */
  lemma LoopSkip(text: string, pos: nat, width: nat, idx: nat, limit: nat, done: seq<Span>)
    requires NoNul(text) && pos <= |text| && idx <= limit
    ensures idx == limit ==> LoopFrom(text, pos, width, idx, limit, done) == Page(done, pos)
    ensures idx < limit && idx > 0 && SkipSpaces(text, pos) == |text| ==>
              LoopFrom(text, pos, width, idx, limit, done) == Page(done, |text|)
  {
  }

  /**
   * A round of the line loop that copies the line at `start`: the loop goes on after its
   * separator with that line added, or ends there at the terminator.
   */
  lemma LoopLine(text: string, pos: nat, width: nat, idx: nat, limit: nat, done: seq<Span>, start: nat)
    requires NoNul(text) && pos <= |text| && idx < limit
    requires start == (if idx > 0 then SkipSpaces(text, pos) else pos) && start < |text|
    ensures var line := Span(start, LineLength(text, start, width));
            var q := AfterSeparator(text, line.End());
            line.End() <= |text| && q <= |text| &&
            LoopFrom(text, pos, width, idx, limit, done) ==
              if q == |text| then Page(done + [line], q) else LoopFrom(text, q, width, idx + 1, limit, done + [line])
  {
  }

  /** strncpy of `len` characters from `text + p` into `buf`, then the terminator at `len`. */
  method CopySegment(buf: array<char>, text: string, p: nat, len: nat)
    requires NoNul(text) && p + len <= |text| && len < buf.Length
    modifies buf
    ensures CStr(buf[..]) == LineText(text, Span(p, len))
  {
    StrNCpy(buf, text[p..], len);
    buf[len] := NUL;
    assert buf[..len] == text[p..p + len];
    CStrOfTerminated(buf[..], len);
  }

  class Dialogue {
    /** full_message and current_message_ptr: the message (None for NULL) and the read cursor into it. */
    var message: Option<string>
    var cursor: nat
    /** lines: MAX_DIALOGUE_LINES buffers of MAX_CHARS_PER_LINE characters each. */
    const lines: seq<array<char>>
    var numLines: nat
    var isActive: bool
    var needsPagingIndicator: bool

    /** Four distinct line buffers of 40 characters each. */
    ghost predicate Storage() {
      |lines| == MaxDialogueLines &&
      (forall i :: 0 <= i < |lines| ==> lines[i].Length == MaxCharsPerLine) &&
      (forall i, j :: 0 <= i < j < |lines| ==> lines[i] != lines[j])
    }

    /**
     * Four distinct line buffers of 40 characters; the cursor within the message; the paging
     * indicator means text remains after the cursor.
     */
    ghost predicate Sound()
      reads this
    {
      Storage() &&
      numLines <= MaxDialogueLines &&
      (message.None? ==> cursor == 0) &&
      (message.Some? ==> NoNul(message.value) && cursor <= |message.value|) &&
      (needsPagingIndicator ==> message.Some? && cursor < |message.value|)
    }

    /** Between calls, moreover, an active dialogue has a message and a line on screen or a page to come. */
    ghost predicate Valid()
      reads this
    {
      Sound() && (isActive ==> message.Some? && (0 < numLines || needsPagingIndicator))
    }

    /** The string held by line buffer `i`. */
    ghost function Line(i: nat): string
      requires i < |lines|
      reads lines[i]
    {
      CStr(lines[i][..])
    }

    /** The strings held by the four line buffers. */
    ghost function Buffers(): seq<string>
      requires Storage()
      reads lines
    {
      [Line(0), Line(1), Line(2), Line(3)]
    }

    /** The buffers, line count, cursor and paging indicator show `page` of `text`. */
    ghost predicate Shows(text: string, page: Page)
      requires Storage()
      requires Within(text, page.spans)
      requires |page.spans| <= MaxDialogueLines
      reads this, lines
    {
      cursor == page.cursor && numLines == |page.spans| &&
      Buffers() == PageBuffers(text, page) &&
      needsPagingIndicator == MoreText(text, page)
    }

    /** No line on screen, no paging indicator and empty buffers. */
    ghost predicate Cleared()
      requires Storage()
      reads this, lines
    {
      numLines == 0 && !needsPagingIndicator && Buffers() == NoLines
    }

    /** How far the dialogue is from its end: the characters left to page through, plus one while active. */
    ghost function Remaining(): nat
      requires Valid()
      reads this
    {
      if !isActive then 0 else |message.value| - cursor + 1
    }

    /** The zero-initialised static storage of `current_dialogue`. */
    constructor()
      ensures Valid() && message.None? && cursor == 0 && !isActive && Cleared()
    {
      message := None;
      cursor := 0;
      numLines := 0;
      isActive := false;
      needsPagingIndicator := false;
      var l0 := new char[MaxCharsPerLine](_ => NUL);
      var l1 := new char[MaxCharsPerLine](_ => NUL);
      var l2 := new char[MaxCharsPerLine](_ => NUL);
      var l3 := new char[MaxCharsPerLine](_ => NUL);
      lines := [l0, l1, l2, l3];
      new;
      CStrOfTerminated(l0[..], 0);
      CStrOfTerminated(l1[..], 0);
      CStrOfTerminated(l2[..], 0);
      CStrOfTerminated(l3[..], 0);
    }

    /** dialogue_engine_init: every field zeroed, every buffer byte NUL, the dialogue inactive. */
    method Init()
      requires Valid()
      modifies this, lines
      ensures Valid() && message.None? && cursor == 0 && !isActive && Cleared()
      ensures forall i, k :: 0 <= i < |lines| && 0 <= k < lines[i].Length ==> lines[i][k] == NUL
    {
      message := None;
      cursor := 0;
      numLines := 0;
      isActive := false;
      needsPagingIndicator := false;
      var i := 0;
      while i < |lines|
        invariant 0 <= i <= |lines| && Valid()
        invariant message.None? && cursor == 0 && numLines == 0 && !isActive && !needsPagingIndicator
        invariant forall j, k :: 0 <= j < i && 0 <= k < lines[j].Length ==> lines[j][k] == NUL
      {
        forall k | 0 <= k < lines[i].Length {
          lines[i][k] := NUL;
        }
        i := i + 1;
      }
      forall j | 0 <= j < |lines| ensures Line(j) == "" {
        CStrOfTerminated(lines[j][..], 0);
      }
    }

    /** The message is missing or its cursor is at the terminator: no text is left to show. */
    ghost predicate AtEnd()
      requires Sound()
      reads this
    {
      message.None? || cursor == |message.value|
    }

    /**
     * `_dialogue_engine_prepare_page`: clears the four buffers, then fills them with the next
     * page from the cursor for a `width` x `height` viewport and moves the cursor past it. With
     * no text left the dialogue becomes inactive instead.
     */
    method PreparePage(width: nat, height: nat)
      requires Sound() && width < MaxCharsPerLine
      modifies this, lines
      ensures Valid() && message == old(message)
      ensures old(AtEnd()) ==> cursor == old(cursor) && !isActive && Cleared()
      ensures !old(AtEnd()) ==>
                isActive == old(isActive) && (0 < numLines || needsPagingIndicator) &&
                Shows(message.value, Pagination.PreparePage(message.value, old(cursor), width, height))
    {
      ClearLines();
      numLines := 0;

      if message.None? || CharAt(message.value, cursor) == NUL {
        isActive := false;
        needsPagingIndicator := false;
        return;
      }

      ShowNextPage(message.value, width, height);
    }

    /**
     * The part of `_dialogue_engine_prepare_page` after the buffers are cleared, when text is
     * left: the line loop, then the cursor moves past the page and the paging indicator says
     * whether text remains.
     */
    method ShowNextPage(text: string, width: nat, height: nat)
      requires Storage() && message == Some(text) && NoNul(text) && cursor < |text|
      requires width < MaxCharsPerLine && numLines == 0 && Buffers() == NoLines
      modifies this, lines
      ensures Valid() && message == old(message) && isActive == old(isActive)
      ensures 0 < numLines || needsPagingIndicator
      ensures Shows(text, Pagination.PreparePage(text, old(cursor), width, height))
    {
      ghost var page := Pagination.PreparePage(text, cursor, width, height);
      PageWithin(text, cursor, width, height);
      var p, n := FillPage(text, cursor, width, height);
      numLines := n;
      cursor := p;
      needsPagingIndicator := CharAt(text, cursor) != NUL;
      ShowsPage(text, page);
    }

    /**
     * dialogue_engine_start_message: resets the state, points at `msg` and shows its first page
     * in a `width` x `height` box. A NULL or empty message leaves the dialogue inactive.
     */
    method StartMessage(msg: Option<string>, width: nat, height: nat)
      requires Valid() && width < MaxCharsPerLine && (msg.Some? ==> NoNul(msg.value))
      modifies this, lines
      ensures Valid() && message == msg
      ensures msg.None? || msg.value == "" ==> cursor == 0 && !isActive && Cleared()
      ensures msg.Some? && msg.value != "" ==>
                isActive && Shows(msg.value, Pagination.PreparePage(msg.value, 0, width, height))
      ensures msg.Some? && msg.value != "" && 1 <= height ==> 1 <= numLines
    {
      Init();
      message := msg;
      cursor := 0;
      isActive := true;
      PreparePage(width, height);
      if numLines == 0 && !needsPagingIndicator {
        isActive := false;
      }
    }

    /**
     * dialogue_engine_update, with `confirm` standing for a fresh press of A or Start. While a
     * page is to come, a press shows it in the 28 x 4 content area; on the last page a press
     * closes the dialogue. It answers whether anything changed.
     */
    method Update(confirm: bool) returns (changed: bool)
      requires Valid()
      modifies this, lines
      ensures Valid() && message == old(message)
      ensures changed <==> old(isActive) && confirm
      ensures !changed ==>
                cursor == old(cursor) && isActive == old(isActive) && numLines == old(numLines) &&
                needsPagingIndicator == old(needsPagingIndicator) && Buffers() == old(Buffers())
      ensures changed && old(needsPagingIndicator) ==>
                isActive &&
                Shows(message.value, Pagination.PreparePage(message.value, old(cursor), ContentCharWidth, ContentMaxLines))
      ensures changed && !old(needsPagingIndicator) ==>
                !isActive && cursor == old(cursor) && numLines == old(numLines) && Buffers() == old(Buffers()) &&
                !needsPagingIndicator
      ensures changed ==> Remaining() < old(Remaining())
    {
      if !isActive {
        return false;
      }
      if needsPagingIndicator {
        if confirm {
          PreparePage(ContentCharWidth, ContentMaxLines);
          // The source deactivates here when the new page is empty with nothing after it; a
          // page shown from text that remains never is, so that branch cannot be taken.
          assert 0 < numLines || needsPagingIndicator;
          return true;
        }
      } else {
        if confirm {
          isActive := false;
          return true;
        }
      }
      return false;
    }

    /** dialogue_engine_is_active: an active dialogue always has a line on screen or a page to come. */
    function IsActive(): (active: bool)
      requires Valid()
      reads this
      ensures active <==> isActive
      ensures active ==> message.Some? && (0 < numLines || needsPagingIndicator)
    {
      isActive
    }

    /**
     * The line loop of `_dialogue_engine_prepare_page`, from the read cursor `from` into the
     * cleared buffers: it fills them with the lines of the page and returns where the text
     * pointer stops and how many lines it copied.
     */
    method FillPage(text: string, from: nat, width: nat, height: nat) returns (p: nat, n: nat)
      requires Storage() && NoNul(text) && from < |text| && width < MaxCharsPerLine
      requires Buffers() == NoLines
      modifies lines
      ensures var page := Pagination.PreparePage(text, from, width, height);
              p == page.cursor && n == |page.spans| && Buffers() == PageBuffers(text, page)
    {
      ghost var limit := Min(height, MaxDialogueLines);
      ghost var page := Pagination.PreparePage(text, from, width, height);
      LoopFromFill(text, from, width, 0, limit, []);
      assert [] + page.spans == page.spans;
      ghost var done: seq<Span> := [];
      p, n := from, 0;
      var idx: nat := 0;
      while idx < height && idx < MaxDialogueLines
        invariant idx <= limit && p <= |text| && (idx == 0 ==> p == from)
        invariant |done| == n == idx && Within(text, done)
        invariant LoopFrom(text, p, width, idx, limit, done) == page
        invariant Buffers() == Copied(text, done)
      {
        var copied, stop;
        p, copied, stop, done := LineRound(idx, text, from, p, width, limit, done);
        if copied {
          n := n + 1;
        }
        if stop {
          return;
        }
        idx := idx + 1;
      }
      LoopSkip(text, p, width, idx, limit, done);
    }

    /**
     * One round of the line loop in slot `idx`: skip the leading spaces (not on the page's first
     * line), stop at the terminator, or copy the next line into buffer `idx` and step over its
     * separator, stopping if that reaches the terminator.
     */
    method LineRound(idx: nat, text: string, from: nat, p: nat, width: nat, ghost limit: nat, ghost done: seq<Span>)
      returns (q: nat, copied: bool, stop: bool, ghost done': seq<Span>)
      requires Storage() && NoNul(text) && p <= |text| && from < |text| && width < MaxCharsPerLine
      requires idx < limit <= MaxDialogueLines && (idx == 0 ==> p == from)
      requires |done| == idx && Within(text, done) && Buffers() == Copied(text, done)
      modifies lines
      ensures q <= |text| && Within(text, done') && Buffers() == Copied(text, done')
      ensures |done'| == (if copied then idx + 1 else idx) && (copied || stop)
      ensures stop ==> LoopFrom(text, p, width, idx, limit, done) == Page(done', q)
      ensures !stop ==> LoopFrom(text, p, width, idx, limit, done) == LoopFrom(text, q, width, idx + 1, limit, done')
    {
      q := p;
      if q != from || idx > 0 {
        q := SkipLeadingSpaces(text, q);
      }
      if CharAt(text, q) == NUL {
        LoopSkip(text, p, width, idx, limit, done);
        return q, false, true, done;
      }
      LoopLine(text, p, width, idx, limit, done, q);
      ghost var line := Span(q, LineLength(text, q, width));
      q := CopyNextLine(idx, text, done, q, width);
      done' := done + [line];
      copied, stop := true, CharAt(text, q) == NUL;
    }

    /**
     * The body of the line loop for a line that starts at `start`: measure it, copy it into
     * buffer `idx`, and step over the newline or space that ends it.
     */
    method CopyNextLine(idx: nat, text: string, ghost done: seq<Span>, start: nat, width: nat) returns (q: nat)
      requires Storage() && idx == |done| < MaxDialogueLines && NoNul(text) && width < MaxCharsPerLine
      requires Within(text, done) && start < |text| && Buffers() == Copied(text, done)
      modifies lines[idx]
      ensures var line := Span(start, LineLength(text, start, width));
              q == AfterSeparator(text, line.End()) && q <= |text| &&
              Within(text, done + [line]) && Buffers() == Copied(text, done + [line])
    {
      var len, lineEnd := MeasureLine(text, start, width);
      ghost var before := Buffers();
      CopyLine(idx, text, start, len);
      CopiedGrow(text, done, Span(start, len), before, Buffers());
      q := lineEnd;
      if CharAt(text, q) == '\n' || CharAt(text, q) == ' ' {
        q := q + 1;
      }
    }

    /** The clearing loop: the first byte of every line buffer becomes the terminator. */
    method ClearLines()
      requires Storage()
      modifies lines
      ensures Buffers() == NoLines
    {
      var i := 0;
      while i < MaxDialogueLines
        invariant 0 <= i <= MaxDialogueLines
        invariant forall j :: 0 <= j < i ==> lines[j][0] == NUL
      {
        lines[i][0] := NUL;
        i := i + 1;
      }
      CStrOfTerminated(lines[0][..], 0);
      CStrOfTerminated(lines[1][..], 0);
      CStrOfTerminated(lines[2][..], 0);
      CStrOfTerminated(lines[3][..], 0);
    }

    /** strncpy of `len` characters from `text + p` into buffer `idx`, then the terminator at `len`. */
    method CopyLine(idx: nat, text: string, p: nat, len: nat)
      requires Storage() && idx < |lines| && NoNul(text) && p + len <= |text| && len < MaxCharsPerLine
      modifies lines[idx]
      ensures Buffers() == old(Buffers())[idx := LineText(text, Span(p, len))]
    {
      CopySegment(lines[idx], text, p, len);
    }

    /** The buffers that hold a page's lines, and nothing after them, show it. */
    lemma ShowsPage(text: string, page: Page)
      requires Storage() && |page.spans| <= MaxDialogueLines
      requires Within(text, page.spans)
      requires cursor == page.cursor && numLines == |page.spans| && needsPagingIndicator == MoreText(text, page)
      requires Buffers() == PageBuffers(text, page)
      ensures Shows(text, page)
    {
    }
  }
}
