/**
 The three consoles, which share the video memory: each has a range of its own, a cursor in
 it, and a window of 25 lines that follows the cursor.
 */
module Console {
  const NR_CONSOLES := 3
  const VIDEO_WORDS := 0x8000 / 2
  const CONSOLE_WORDS := VIDEO_WORDS / NR_CONSOLES
  const SCREEN_WIDTH := 80
  const SCREEN_SIZE := 2000
  const DEFAULT_CHAR_COLOR := 7

  const NEWLINE := 10
  const BACKSPACE := 8
  const SPACE := 32

  datatype Cell = Cell(ch: int, color: int)

  datatype Direction = Up | Down

  /** A console: the first word of its range and of its window, the size of the range, and the cursor. */
  datatype Screen = Screen(original: int, limit: int, start: int, cursor: int)

  /** Row-aligned, inside the range up to a last partial window, and with the cursor in the range. */
  predicate Sound(s: Screen) {
    && 0 <= s.original && s.limit == CONSOLE_WORDS
    && s.original <= s.start && (s.start - s.original) % SCREEN_WIDTH == 0
    && s.start + SCREEN_SIZE < s.original + s.limit + SCREEN_WIDTH
    && s.original <= s.cursor < s.original + s.limit
  }

  /** What scroll_screen does. */
  function Scrolled(s: Screen, d: Direction): Screen {
    match d
    case Up => if s.start > s.original then s.(start := s.start - SCREEN_WIDTH) else s
    case Down => if s.start + SCREEN_SIZE < s.original + s.limit then s.(start := s.start + SCREEN_WIDTH) else s
  }

  function Line(s: Screen): int {
    (s.cursor - s.original) / SCREEN_WIDTH
  }

  function CursorAfter(s: Screen, ch: int): int {
    if ch == NEWLINE then
      if s.cursor < s.original + s.limit - SCREEN_WIDTH then s.original + SCREEN_WIDTH * (Line(s) + 1) else s.cursor
    else if ch == BACKSPACE then (if s.cursor > s.original then s.cursor - 1 else s.cursor)
    else if s.cursor < s.original + s.limit - 1 then s.cursor + 1
    else s.cursor
  }

  /** The first row-aligned window at or below the one at start that ends behind the cursor. */
  function Window(start: int, cursor: int): int {
    if cursor < start + SCREEN_SIZE then start
    else start + SCREEN_WIDTH * ((cursor - start - SCREEN_SIZE) / SCREEN_WIDTH + 1)
  }

  /** What out_char does to the console... */
  function Typed(s: Screen, ch: int): Screen {
    var c := CursorAfter(s, ch);
    s.(cursor := c, start := Window(s.start, c))
  }

  /** ... and to the video memory. */
  function Painted(video: seq<Cell>, s: Screen, ch: int): seq<Cell>
    requires Sound(s) && s.original + s.limit <= |video|
  {
    if ch == NEWLINE then video
    else if ch == BACKSPACE then
      if s.cursor > s.original then video[s.cursor - 1 := Cell(SPACE, DEFAULT_CHAR_COLOR)] else video
    else if s.cursor < s.original + s.limit - 1 then video[s.cursor := Cell(ch, DEFAULT_CHAR_COLOR)]
    else video
  }

  // ---------------------------------------------------------------- single calls

  lemma CursorStaysInside(s: Screen, ch: int)
    requires Sound(s)
    ensures s.original <= CursorAfter(s, ch) < s.original + s.limit
  {
  }

  /** The window moves down by the least number of lines that brings the cursor into it. */
  lemma WindowFollows(start: int, cursor: int)
    ensures start <= Window(start, cursor) && (Window(start, cursor) - start) % SCREEN_WIDTH == 0
    ensures cursor < Window(start, cursor) + SCREEN_SIZE
    ensures Window(start, cursor) > start ==> cursor >= Window(start, cursor) - SCREEN_WIDTH + SCREEN_SIZE
  {
  }

  lemma FirstWindow(first: int, start: int, cursor: int)
    requires first <= start && (start - first) % SCREEN_WIDTH == 0 && cursor < start + SCREEN_SIZE
    requires start == first || cursor >= start - SCREEN_WIDTH + SCREEN_SIZE
    ensures start == Window(first, cursor)
  {
    var lines := (start - first) / SCREEN_WIDTH;
    assert start == first + SCREEN_WIDTH * lines;
  }

  lemma TypingKeepsSound(s: Screen, ch: int)
    requires Sound(s)
    ensures Sound(Typed(s, ch)) && Typed(s, ch).cursor < Typed(s, ch).start + SCREEN_SIZE
  {
    var c := CursorAfter(s, ch);
    CursorStaysInside(s, ch);
    WindowFollows(s.start, c);
    var lines := (s.start - s.original) / SCREEN_WIDTH;
    assert Window(s.start, c) - s.original == (Window(s.start, c) - s.start) + lines * SCREEN_WIDTH;
  }

  lemma ScrollingKeepsSound(s: Screen, d: Direction)
    requires Sound(s)
    ensures Sound(Scrolled(s, d)) && Scrolled(s, d).cursor == s.cursor
  {
  }

  // ---------------------------------------------------------------- scrolling

  /** The lines of the range that lie above the window, or those by which it can go down until the range ends in it. */
  function LinesLeft(s: Screen, d: Direction): int {
    match d
    case Up => (s.start - s.original) / 80
    case Down => (s.original + s.limit - s.start - 2000 + 79) / 80
  }

  function OneLine(d: Direction): int {
    match d
    case Up => -80
    case Down => 80
  }

  function Opposite(d: Direction): Direction {
    match d
    case Up => Down
    case Down => Up
  }

  /** Of the window's 45 places, scrolling moves it to the next one, if there is one, and the other way undoes it. */
  lemma ScrollsOneLine(s: Screen, d: Direction)
    requires Sound(s)
    ensures LinesLeft(s, d) >= 0 && LinesLeft(s, Up) + LinesLeft(s, Down) == 44
    ensures Sound(Scrolled(s, d))
    ensures var t := Scrolled(s, d);
            if LinesLeft(s, d) == 0 then t == s
            else t == s.(start := s.start + OneLine(d)) && LinesLeft(t, d) == LinesLeft(s, d) - 1
                 && Scrolled(t, Opposite(d)) == s
  {
  }

  /** n scrolls in one direction. */
  function ScrolledBy(s: Screen, d: Direction, n: nat): Screen {
    if n == 0 then s else Scrolled(ScrolledBy(s, d, n - 1), d)
  }

  function Min(x: int, y: int): int {
    if x < y then x else y
  }

  /** Together they move the window by n lines, or by as many as are left. */
  lemma {:induction false} ScrollsAddUp(s: Screen, d: Direction, n: nat)
    requires Sound(s)
    ensures Sound(ScrolledBy(s, d, n))
    ensures LinesLeft(ScrolledBy(s, d, n), d) == LinesLeft(s, d) - Min(n, LinesLeft(s, d))
    ensures ScrolledBy(s, d, n) == s.(start := s.start + OneLine(d) * Min(n, LinesLeft(s, d)))
  {
    ScrollsOneLine(s, d);
    if n > 0 {
      ScrollsAddUp(s, d, n - 1);
      var t := ScrolledBy(s, d, n - 1);
      ScrollsOneLine(t, d);
      Onward(s.start, OneLine(d), n, LinesLeft(s, d));
    }
  }

  lemma Onward(start: int, step: int, n: int, lines: int)
    requires n > 0 && lines >= 0
    ensures start + step * Min(n, lines) ==
            start + step * Min(n - 1, lines) + if lines - Min(n - 1, lines) == 0 then 0 else step
  {
    assert n <= lines ==> step * n == step * (n - 1) + step;
  }

  // ---------------------------------------------------------------- characters

  /** A line feed goes to the start of the next line, unless the range is used up. */
  lemma NewlineStartsALine(s: Screen)
    requires Sound(s) && s.cursor < s.original + s.limit - SCREEN_WIDTH
    ensures var c := CursorAfter(s, NEWLINE);
            (c - s.original) % SCREEN_WIDTH == 0 && s.cursor < c <= s.cursor + SCREEN_WIDTH
  {
    var line := Line(s);
    assert (SCREEN_WIDTH * (line + 1)) % SCREEN_WIDTH == 0;
  }

  predicate IsPrintable(ch: int) {
    ch != NEWLINE && ch != BACKSPACE
  }

  /**
   A backspace takes back the character typed before it, and leaves a blank in its place, exactly
   if there was room for that character.
   */
  lemma BackspaceTakesBack(video: seq<Cell>, s: Screen, ch: int)
    requires Sound(s) && s.original + s.limit <= |video| && IsPrintable(ch)
    ensures Sound(Typed(s, ch))
    ensures Typed(Typed(s, ch), BACKSPACE).cursor == s.cursor <==> s.cursor < s.original + s.limit - 1
    ensures Typed(Typed(s, ch), BACKSPACE).cursor == s.cursor ==>
              Painted(Painted(video, s, ch), Typed(s, ch), BACKSPACE)
                == video[s.cursor := Cell(SPACE, DEFAULT_CHAR_COLOR)]
  {
    TypingKeepsSound(s, ch);
  }

  /**
   A character changes no more than the cells between where the cursor was and where it then is: none for a line
   feed, the blanked one for a backspace, its own for any other. At the ends of the range it changes nothing.
   */
  lemma OneCellAtMost(video: seq<Cell>, s: Screen, ch: int, k: int)
    requires Sound(s) && s.original + s.limit <= |video| && 0 <= k < |video|
    ensures var c, after := Typed(s, ch).cursor, Painted(video, s, ch);
            && |after| == |video|
            && after[k] == (if ch == BACKSPACE && c <= k < s.cursor then Cell(32, 7)
                            else if IsPrintable(ch) && s.cursor <= k < c then Cell(ch, 7)
                            else video[k])
            && (ch == BACKSPACE ==> c == if s.cursor == s.original then s.cursor else s.cursor - 1)
            && (ch == NEWLINE ==> (c == s.cursor <==> s.cursor >= s.original + s.limit - 80))
            && (IsPrintable(ch) ==> c == if s.cursor == s.original + s.limit - 1 then s.cursor else s.cursor + 1)
  {
  }

  /** A console and the video memory after a text has been typed. */
  function TypedAll(s: Screen, text: seq<int>): (r: Screen)
    requires Sound(s)
    ensures Sound(r) && r.original == s.original
  {
    if text == [] then s
    else
      var front := TypedAll(s, text[..|text| - 1]);
      TypingKeepsSound(front, text[|text| - 1]);
      Typed(front, text[|text| - 1])
  }

  function PaintedAll(video: seq<Cell>, s: Screen, text: seq<int>): (r: seq<Cell>)
    requires Sound(s) && s.original + s.limit <= |video|
    ensures |r| == |video|
  {
    if text == [] then video
    else Painted(PaintedAll(video, s, text[..|text| - 1]), TypedAll(s, text[..|text| - 1]), text[|text| - 1])
  }

  /** A text stands in the video memory from the cursor on, in order, and nothing else has changed. */
  lemma {:induction false} TextAppears(video: seq<Cell>, s: Screen, text: seq<int>)
    requires Sound(s) && s.original + s.limit <= |video|
    requires s.cursor + |text| < s.original + s.limit && forall i :: 0 <= i < |text| ==> IsPrintable(text[i])
    ensures TypedAll(s, text).cursor == s.cursor + |text|
    ensures forall k :: 0 <= k < |video| ==>
              PaintedAll(video, s, text)[k] ==
              if s.cursor <= k < s.cursor + |text| then Cell(text[k - s.cursor], 7) else video[k]
  {
    if text != [] {
      var n := |text| - 1;
      TextAppears(video, s, text[..n]);
      assert IsPrintable(text[n]);
    }
  }

  // ---------------------------------------------------------------- the consoles together

  datatype Event = Out(nr: int, ch: int) | Scroll(nr: int, d: Direction)

  datatype Machine = Machine(screens: seq<Screen>, video: seq<Cell>)

  predicate SoundMachine(m: Machine) {
    && |m.screens| == NR_CONSOLES && |m.video| == VIDEO_WORDS
    && forall i :: 0 <= i < NR_CONSOLES ==> Sound(m.screens[i]) && m.screens[i].original == i * CONSOLE_WORDS
  }

  predicate ValidEvent(e: Event) {
    0 <= e.nr < NR_CONSOLES
  }

  lemma RangesFit(m: Machine, i: int)
    requires SoundMachine(m) && 0 <= i < NR_CONSOLES
    ensures var s := m.screens[i]; 0 <= s.original && s.original + s.limit <= VIDEO_WORDS
  {
  }

  function Step(m: Machine, e: Event): Machine
    requires SoundMachine(m) && ValidEvent(e)
  {
    RangesFit(m, e.nr);
    var s := m.screens[e.nr];
    match e
    case Out(nr, ch) => Machine(m.screens[nr := Typed(s, ch)], Painted(m.video, s, ch))
    case Scroll(nr, d) => m.(screens := m.screens[nr := Scrolled(s, d)])
  }

  lemma StepKeepsSound(m: Machine, e: Event)
    requires SoundMachine(m) && ValidEvent(e)
    ensures SoundMachine(Step(m, e))
  {
    var s := m.screens[e.nr];
    match e
    case Out(_, ch) => TypingKeepsSound(s, ch);
    case Scroll(_, d) => ScrollingKeepsSound(s, d);
  }

  function Run(m: Machine, es: seq<Event>): (r: Machine)
    requires SoundMachine(m) && forall k :: 0 <= k < |es| ==> ValidEvent(es[k])
    ensures SoundMachine(r)
    decreases |es|
  {
    if es == [] then m
    else
      StepKeepsSound(m, es[0]);
      Run(Step(m, es[0]), es[1..])
  }

  /** What belongs to console i: its state and its part of the video memory. */
  function Own(m: Machine, i: int): (Screen, seq<Cell>)
    requires SoundMachine(m) && 0 <= i < NR_CONSOLES
  {
    RangesFit(m, i);
    (m.screens[i], m.video[i * CONSOLE_WORDS..(i + 1) * CONSOLE_WORDS])
  }

  lemma OthersDoNotTouch(m: Machine, e: Event, i: int)
    requires SoundMachine(m) && ValidEvent(e) && 0 <= i < NR_CONSOLES && e.nr != i
    ensures SoundMachine(Step(m, e)) && Own(Step(m, e), i) == Own(m, i)
  {
    StepKeepsSound(m, e);
  }

  lemma OwnDecides(m: Machine, n: Machine, e: Event)
    requires SoundMachine(m) && SoundMachine(n) && ValidEvent(e) && Own(m, e.nr) == Own(n, e.nr)
    ensures SoundMachine(Step(m, e)) && SoundMachine(Step(n, e)) && Own(Step(m, e), e.nr) == Own(Step(n, e), e.nr)
  {
    StepKeepsSound(m, e);
    StepKeepsSound(n, e);
    var mine, yours := Own(Step(m, e), e.nr).1, Own(Step(n, e), e.nr).1;
    forall k | 0 <= k < CONSOLE_WORDS ensures mine[k] == yours[k] {
      SameCellBefore(m, n, e.nr, k);
    }
  }

  lemma SameCellBefore(m: Machine, n: Machine, i: int, k: int)
    requires SoundMachine(m) && SoundMachine(n) && 0 <= i < NR_CONSOLES && Own(m, i) == Own(n, i)
    requires 0 <= k < CONSOLE_WORDS
    ensures m.video[i * CONSOLE_WORDS + k] == n.video[i * CONSOLE_WORDS + k]
  {
    assert Own(m, i).1[k] == Own(n, i).1[k];
  }

  /** The events of console i alone. */
  function Only(es: seq<Event>, i: int): seq<Event> {
    if es == [] then [] else (if es[0].nr == i then [es[0]] else []) + Only(es[1..], i)
  }

  lemma {:induction false} OnlyIsValid(es: seq<Event>, i: int)
    requires forall k :: 0 <= k < |es| ==> ValidEvent(es[k])
    ensures forall k :: 0 <= k < |Only(es, i)| ==> ValidEvent(Only(es, i)[k])
  {
    if es != [] {
      OnlyIsValid(es[1..], i);
    }
  }

  /**
   Isolation: whatever is typed and scrolled on all the consoles, in whatever order, a console
   and its memory are in the end as if only its own events had happened.
   */
  lemma {:induction false} ConsolesAreIsolated(m: Machine, n: Machine, es: seq<Event>, i: int)
    requires SoundMachine(m) && SoundMachine(n) && 0 <= i < NR_CONSOLES && Own(m, i) == Own(n, i)
    requires forall k :: 0 <= k < |es| ==> ValidEvent(es[k])
    ensures forall k :: 0 <= k < |Only(es, i)| ==> ValidEvent(Only(es, i)[k])
    ensures Own(Run(m, es), i) == Own(Run(n, Only(es, i)), i)
    decreases |es|
  {
    OnlyIsValid(es, i);
    if es != [] {
      var e, rest := es[0], es[1..];
      StepKeepsSound(m, e);
      if e.nr == i {
        OwnDecides(m, n, e);
        ConsolesAreIsolated(Step(m, e), Step(n, e), rest, i);
        assert Only(es, i)[1..] == Only(rest, i);
      } else {
        OthersDoNotTouch(m, e, i);
        ConsolesAreIsolated(Step(m, e), n, rest, i);
        assert Only(es, i) == Only(rest, i);
      }
    }
  }

  // ---------------------------------------------------------------- the code

  class Console {
    var original: int
    var limit: int
    var start: int
    var cursor: int
    const video: array<Cell>

    ghost function View(): Screen
      reads this
    {
      Screen(original, limit, start, cursor)
    }

    ghost predicate Valid()
      reads this
    {
      Sound(View()) && video.Length == VIDEO_WORDS && original + limit <= VIDEO_WORDS
    }

    /** init_screen for console nr; console 0 goes on where the boot messages stopped. */
    constructor (nr: int, video: array<Cell>, bootPosition: nat)
      requires 0 <= nr < NR_CONSOLES && video.Length == VIDEO_WORDS && bootPosition / 2 < CONSOLE_WORDS
      modifies video
      ensures Valid() && this.video == video && original == nr * CONSOLE_WORDS && start == original
      ensures cursor == if nr == 0 then bootPosition / 2 else original + 2
      ensures forall k :: 0 <= k < VIDEO_WORDS && !(original <= k < original + limit) ==> video[k] == old(video[k])
    {
      this.video := video;
      limit := VIDEO_WORDS / NR_CONSOLES;
      original := nr * (VIDEO_WORDS / NR_CONSOLES);
      start := nr * (VIDEO_WORDS / NR_CONSOLES);
      cursor := nr * (VIDEO_WORDS / NR_CONSOLES);
      new;
      if nr == 0 {
        cursor := bootPosition / 2;
      } else {
        OutChar(nr + 48);
        OutChar(35);
      }
    }

    method ScrollScreen(d: Direction)
      requires Valid()
      modifies this`start
      ensures Valid() && View() == Scrolled(old(View()), d)
    {
      ScrollingKeepsSound(View(), d);
      if d == Up {
        if start > original {
          start := start - SCREEN_WIDTH;
        }
      } else {
        if start + SCREEN_SIZE < original + limit {
          start := start + SCREEN_WIDTH;
        }
      }
    }

    method OutChar(ch: int)
      requires Valid()
      modifies this`cursor, this`start, video
      ensures Valid() && View() == Typed(old(View()), ch)
      ensures video[..] == Painted(old(video[..]), old(View()), ch)
    {
      CursorStaysInside(View(), ch);
      Put(ch);
      FollowCursor();
    }

    /** The switch of out_char. */
    method Put(ch: int)
      requires Valid()
      modifies this`cursor, video
      ensures View() == old(View()).(cursor := CursorAfter(old(View()), ch))
      ensures video[..] == Painted(old(video[..]), old(View()), ch)
    {
      if ch == NEWLINE {
        if cursor < original + limit - SCREEN_WIDTH {
          cursor := original + SCREEN_WIDTH * ((cursor - original) / SCREEN_WIDTH + 1);
        }
      } else if ch == BACKSPACE {
        if cursor > original {
          cursor := cursor - 1;
          video[cursor] := Cell(SPACE, DEFAULT_CHAR_COLOR);
        }
      } else {
        if cursor < original + limit - 1 {
          video[cursor] := Cell(ch, DEFAULT_CHAR_COLOR);
          cursor := cursor + 1;
        }
      }
    }

    /** The scroll loop of out_char. */
    method FollowCursor()
      requires Valid()
      modifies this`start
      ensures Valid() && View() == old(View()).(start := Window(old(start), cursor))
    {
      ghost var first := start;
      while cursor >= start + SCREEN_SIZE
        invariant Valid() && View() == old(View()).(start := start)
        invariant first <= start && (start - first) % SCREEN_WIDTH == 0
        invariant start == first || cursor >= start - SCREEN_WIDTH + SCREEN_SIZE
        decreases cursor - start
      {
        ScrollScreen(Down);
      }
      FirstWindow(first, start, cursor);
    }
  }
}
