/// What the key dispatch of cmd/cd-surfer/model.go guarantees, proved on the
/// functions of SurferSpec: the state invariant every message keeps, cursor
/// and viewport behaviour, the search-mode transitions, cursorEnter's cases,
/// goParent, the previous-path swap and the selection toggle.
module SurferProps {
  import opened Wrappers
  import opened Misc
  import opened Grid
  import opened Paths
  import opened Entries
  import opened Search
  import opened Tea
  import opened SurferSpec

  /** The stored layout is the one calculateColsAndRows gives for the state. */
  predicate LayoutMatches(env: Env, s: State)
    requires ValidEnv(env)
  {
    var l := LayoutOf(env, s);
    s.cols == l.cols && s.colSize == l.colSize && s.rows == l.rows
  }

  /** The invariant of the browser's state: the path-entry mode is never
      entered; list mode shows the directory with an empty query, search mode
      the filtered items with a non-empty one; once the first window size is
      known, the layout fits the items on screen. */
  predicate Inv(env: Env, s: State)
    requires ValidEnv(env)
  {
    && s.mode != EnterPath
    && (s.mode == List ==> s.searchInput == "" && s.view == DirView)
    && (s.mode == Search ==> s.searchInput != "" && s.view == FilteredView)
    && (s.cols == 0 || LayoutMatches(env, s))
  }

  lemma InitSatisfiesInv(env: Env, cwd: Path)
    requires ValidEnv(env)
    ensures Inv(env, Init(env, cwd))
    ensures Init(env, cwd).Items() == Listing(env.cfg, env.fs, cwd)
  {
  }

  lemma ResizeKeepsInv(env: Env, s: State, width: nat, height: nat)
    requires ValidEnv(env) && Inv(env, s)
    ensures var r := Resize(env, s, width, height);
            Inv(env, r) && r.cols >= 1 && r.width == width && r.height == height
  {
  }

  /** The names, and so the layout, do not depend on the selection marks. */
  lemma {:induction false} MaxNameLengthOfNames(a: seq<Item>, b: seq<Item>)
    requires |a| == |b| && forall i :: 0 <= i < |a| ==> a[i].name == b[i].name
    ensures MaxNameLength(a) == MaxNameLength(b)
  {
    if a != [] {
      MaxNameLengthOfNames(a[1..], b[1..]);
    }
  }

  lemma ToggleKeepsLayout(env: Env, s: State)
    requires ValidEnv(env) && 0 <= s.cursorIx < |s.Items()|
    ensures LayoutOf(env, ToggleSelection(s)) == LayoutOf(env, s)
  {
    MaxNameLengthOfNames(ToggleSelection(s).Items(), s.Items());
  }

  lemma CalcMatches(env: Env, s: State)
    requires ValidEnv(env)
    ensures LayoutMatches(env, Calc(env, s))
  {
    assert LayoutOf(env, Calc(env, s)) == LayoutOf(env, s);
  }

  /** Leaving for list mode establishes the invariant, whatever came before. */
  lemma ListModeInv(env: Env, s: State)
    requires ValidEnv(env)
    ensures Inv(env, ChangeMode(env, s, List))
  {
    CalcMatches(env, s.(searchInput := "", mode := List, view := DirView));
  }

  /** Entering search mode with a non-empty query establishes the invariant. */
  lemma SearchModeInv(env: Env, s: State)
    requires ValidEnv(env) && s.searchInput != ""
    ensures Inv(env, ChangeMode(env, s, Search))
  {
    CalcMatches(env, s.(mode := Search, view := FilteredView));
  }

  /** Re-listing in list mode, then laying out, keeps the invariant. */
  lemma RelistInv(env: Env, s: State)
    requires ValidEnv(env) && Inv(env, s) && s.mode == List
    ensures Inv(env, Calc(env, Ls(env, s)))
    ensures Inv(env, SetOffsetToMiddle(Calc(env, Ls(env, s))))
  {
    CalcMatches(env, Ls(env, s));
  }

  lemma GoParentKeepsInv(env: Env, s: State)
    requires ValidEnv(env) && Inv(env, s) && s.mode == List
    ensures Inv(env, GoParent(env, s))
  {
    if Parent(s.path) != s.path {
      var s1 := Calc(env, Ls(env, s.(path := Parent(s.path))));
      RelistInv(env, s.(path := Parent(s.path)));
      assert Inv(env, s1.(cursorIx := FindByInfoName(s1.Items(), Base(s.path))));
    }
  }

  lemma EnterKeyKeepsInv(env: Env, s: State)
    requires ValidEnv(env) && Inv(env, s)
    ensures Inv(env, EnterKey(env, s).state)
  {
    if |s.Items()| > 0 && 0 <= s.cursorIx < |s.Items()| {
      ListModeInv(env, CursorEnter(env, s).state);
    }
  }

  lemma ToggleKeepsInv(env: Env, s: State)
    requires ValidEnv(env) && Inv(env, s)
    ensures Inv(env, ToggleKey(s).state)
  {
    if 0 <= s.cursorIx < |s.Items()| {
      ToggleKeepsLayout(env, s);
    }
  }

  lemma SearchTypingKeepsInv(env: Env, s: State, runes: string)
    requires ValidEnv(env) && Inv(env, s)
    ensures Inv(env, SearchTyping(env, s, runes).state)
  {
    if runes != [] && IsLowerLetter(runes[0]) {
      var q := s.searchInput + runes;
      SearchModeInv(env, SearchFilter(s.(searchInput := q), q).(cursorIx := 0, rowOffset := 0));
    }
  }

  lemma SearchBackspaceKeepsInv(env: Env, s: State)
    requires ValidEnv(env) && Inv(env, s)
    ensures Inv(env, SearchBackspace(env, s).state)
  {
    if s.searchInput != "" {
      var q := s.searchInput[..|s.searchInput| - 1];
      var s1 := s.(searchInput := q, cursorIx := 0, rowOffset := 0);
      if q == "" {
        ListModeInv(env, s1);
      } else {
        SearchModeInv(env, SearchFilter(s1, q));
      }
    }
  }

  /** Step takes exactly one of its four groups of cases. */
  lemma StepCases(env: Env, s: State, k: Key)
    requires ValidEnv(env)
    ensures var b := Binding(k);
            && (IsMove(b) ==> Step(env, s, k) == Move(s, b))
            && (!IsMove(b) && IsCommand(b, s.mode) ==> Step(env, s, k) == Command(env, s, b))
            && (!IsMove(b) && !IsCommand(b, s.mode) && s.mode == List && IsListCommand(b) ==>
                  Step(env, s, k) == ListCommand(env, s, b))
            && (!IsMove(b) && !IsCommand(b, s.mode) && !(s.mode == List && IsListCommand(b)) ==>
                  Step(env, s, k) == Other(env, s, k, b))
  {
  }

  /** The list-mode command group. */
  lemma StepListCommand(env: Env, s: State, k: Key)
    requires ValidEnv(env) && s.mode == List && IsListCommand(Binding(k))
    ensures Step(env, s, k) == ListCommand(env, s, Binding(k))
  {
    var b := Binding(k);
    assert !IsMove(b) && !IsCommand(b, s.mode);
  }

  /** The fall-through group, for a key bound to no command in the mode. */
  lemma StepOther(env: Env, s: State, k: Key)
    requires ValidEnv(env)
    requires !IsMove(Binding(k)) && !IsCommand(Binding(k), s.mode)
    requires !(s.mode == List && IsListCommand(Binding(k)))
    ensures Step(env, s, k) == Other(env, s, k, Binding(k))
  {
  }

  lemma MoveKeepsInv(env: Env, s: State, b: Bound)
    requires ValidEnv(env) && Inv(env, s) && IsMove(b)
    ensures Inv(env, Move(s, b).state)
  {
    assert Move(s, b).state == s.(cursorIx := Move(s, b).state.cursorIx, rowOffset := Move(s, b).state.rowOffset);
  }

  lemma CommandKeepsInv(env: Env, s: State, b: Bound)
    requires ValidEnv(env) && Inv(env, s) && IsCommand(b, s.mode)
    ensures Inv(env, Command(env, s, b).state)
  {
    if b == Enter || b == Tab {
      EnterKeyKeepsInv(env, s);
    } else if b == Copy || b == Cut || b == Paste {
      ToggleKeepsInv(env, s);
    }
  }

  lemma ListCommandKeepsInv(env: Env, s: State, b: Bound)
    requires ValidEnv(env) && Inv(env, s) && s.mode == List && IsListCommand(b)
    ensures Inv(env, ListCommand(env, s, b).state)
  {
    if b == Tilde {
      RelistInv(env, s.(previousPath := s.path, path := env.fs.home));
    } else if b == Prev {
      RelistInv(env, s.(path := s.previousPath, previousPath := s.path));
    } else if b == AltBackspace {
      GoParentKeepsInv(env, s);
    } else if b == ShowDetails {
      CalcMatches(env, s.(showDetails := !s.showDetails));
    } else {
      RelistInv(env, s.(previousPath := s.path, path := Root, cursorIx := 0, rowOffset := 0));
    }
  }

  lemma OtherKeepsInv(env: Env, s: State, k: Key, b: Bound)
    requires ValidEnv(env) && Inv(env, s)
    ensures Inv(env, Other(env, s, k, b).state)
  {
    if k.Runes? {
      SearchTypingKeepsInv(env, s, k.runes);
    } else if b == Backspace && s.mode == Search {
      SearchBackspaceKeepsInv(env, s);
    } else if (b == Esc || b == Clear) && s.mode == Search {
      ListModeInv(env, s.(cursorIx := 0, rowOffset := 0));
    }
  }

  /** Every key keeps the invariant. */
  lemma StepKeepsInv(env: Env, s: State, k: Key)
    requires ValidEnv(env) && Inv(env, s)
    ensures Inv(env, Step(env, s, k).state)
  {
    var b := Binding(k);
    StepCases(env, s, k);
    if IsMove(b) {
      MoveKeepsInv(env, s, b);
    } else if IsCommand(b, s.mode) {
      CommandKeepsInv(env, s, b);
    } else if s.mode == List && IsListCommand(b) {
      ListCommandKeepsInv(env, s, b);
    } else {
      OtherKeepsInv(env, s, k, b);
    }
  }

  /** The bindings of the named keys used below. */
  lemma NamedKeyBindings()
    ensures Binding(Special("end", false)) == End
    ensures Binding(Special("home", false)) == Home
    ensures Binding(Special("enter", false)) == Enter
    ensures Binding(Special("backspace", false)) == Backspace
    ensures Binding(Special("backspace", true)) == AltBackspace
    ensures Binding(Special("esc", false)) == Esc
    ensures Binding(Special("ctrl+u", false)) == Clear
  {
    assert KeyString(Special("backspace", true)) == "alt+backspace";
  }

  /** A single typed lower-case letter is bound to nothing. */
  lemma LetterIsUnbound(c: char)
    requires 'a' <= c <= 'z'
    ensures Binding(Runes([c], false)) == Unbound
  {
  }

  /** alt+d and alt+v are bound to the details and paste commands. */
  lemma AltLetterBindings(c: char)
    requires c == 'd' || c == 'v'
    ensures Binding(Runes([c], true)) == (if c == 'd' then ShowDetails else Paste)
  {
    assert KeyString(Runes([c], true)) == "alt+" + [c];
    assert "alt+" + ['d'] == "alt+d" && "alt+" + ['v'] == "alt+v";
  }

  /** A laid-out grid has just enough rows for the displayed items. */
  lemma LayoutFitsItems(env: Env, s: State)
    requires ValidEnv(env) && LayoutMatches(env, s)
    ensures s.rows >= 0 && s.rows * s.cols >= |s.Items()|
    ensures s.rows == 0 || (s.rows - 1) * s.cols < |s.Items()|
  {
    GridLayoutBounds(s.width, MaxNameLength(s.Items()), env.cfg.filesSeparator,
                     s.showDetails || s.mode == Search, |s.Items()|);
  }

  /** One arrow case, given the grid's bounds: the cursor moves within the
      listing, and the window scrolls only when the moved cursor has left it,
      by one row in the direction of the move. */
  lemma ArrowCase(s: State, delta: int, scroll: int)
    requires s.cols >= 1 && 0 <= s.cursorIx < |s.Items()| && s.rows >= 0
    requires s.rows * s.cols >= |s.Items()| && (s.rows == 0 || (s.rows - 1) * s.cols < |s.Items()|)
    requires IsCursorDisplayed(s.cursorIx, s.cols, s.rowOffset, s.height)
    requires ((delta == -1 || delta == -(s.cols as int)) && scroll == -1)
             || ((delta == 1 || delta == s.cols) && scroll == 1)
    ensures var r := Arrow(s, delta, scroll);
            && r.outcome == Continue
            && r.state == s.(cursorIx := r.state.cursorIx, rowOffset := r.state.rowOffset)
            && 0 <= r.state.cursorIx < |s.Items()|
            && IsCursorDisplayed(r.state.cursorIx, s.cols, r.state.rowOffset, s.height)
            && (IsCursorDisplayed(r.state.cursorIx, s.cols, s.rowOffset, s.height) ==> r.state.rowOffset == s.rowOffset)
            && (s.rowOffset >= 0 ==> r.state.rowOffset == s.rowOffset || r.state.rowOffset == s.rowOffset + scroll)
  {
    ArrowKeepsCursorVisible(s.cursorIx, |s.Items()|, s.cols, s.rows, s.rowOffset, s.height, delta, scroll);
  }

  /** The arrow cases move the cursor within the listing and scroll, one row
      up for left and up and one row down for right and down, only when the
      cursor would leave the window; nothing else changes. */
  lemma MoveArrowKeepsCursor(env: Env, s: State, b: Bound)
    requires ValidEnv(env) && Inv(env, s) && s.cols >= 1
    requires 0 <= s.cursorIx < |s.Items()|
    requires IsCursorDisplayed(s.cursorIx, s.cols, s.rowOffset, s.height)
    requires b == Left || b == Right || b == Up || b == Down
    ensures var r := Move(s, b);
            && r.outcome == Continue
            && r.state == s.(cursorIx := r.state.cursorIx, rowOffset := r.state.rowOffset)
            && 0 <= r.state.cursorIx < |s.Items()|
            && IsCursorDisplayed(r.state.cursorIx, s.cols, r.state.rowOffset, s.height)
            && (IsCursorDisplayed(r.state.cursorIx, s.cols, s.rowOffset, s.height) ==> r.state.rowOffset == s.rowOffset)
            && (s.rowOffset >= 0 ==>
                  r.state.rowOffset == s.rowOffset
                  || r.state.rowOffset == s.rowOffset + (if b == Left || b == Up then -1 else 1))
  {
    LayoutFitsItems(env, s);
    var cols: int := s.cols;
    if b == Left {
      ArrowCase(s, -1, -1);
    } else if b == Right {
      ArrowCase(s, 1, 1);
    } else if b == Up {
      ArrowCase(s, -cols, -1);
    } else {
      ArrowCase(s, cols, 1);
    }
  }

  /** The arrow keys keep a visible cursor on the listing and on screen,
      scrolling by one row only when it would leave the window. */
  lemma ArrowKeepsCursorOnScreen(env: Env, s: State, k: Key)
    requires ValidEnv(env) && Inv(env, s) && s.cols >= 1
    requires 0 <= s.cursorIx < |s.Items()|
    requires IsCursorDisplayed(s.cursorIx, s.cols, s.rowOffset, s.height)
    requires Binding(k) == Left || Binding(k) == Right || Binding(k) == Up || Binding(k) == Down
    ensures var r := Step(env, s, k);
            && r.outcome == Continue
            && r.state == s.(cursorIx := r.state.cursorIx, rowOffset := r.state.rowOffset)
            && 0 <= r.state.cursorIx < |s.Items()|
            && IsCursorDisplayed(r.state.cursorIx, s.cols, r.state.rowOffset, s.height)
            && (IsCursorDisplayed(r.state.cursorIx, s.cols, s.rowOffset, s.height) ==> r.state.rowOffset == s.rowOffset)
            && (s.rowOffset >= 0 ==>
                  r.state.rowOffset == s.rowOffset
                  || r.state.rowOffset == s.rowOffset + (if Binding(k) == Left || Binding(k) == Up then -1 else 1))
  {
    StepCases(env, s, k);
    MoveArrowKeepsCursor(env, s, Binding(k));
  }

  /** End puts the cursor on the last item and scrolls to the last row; Home
      goes back to the first item and the top. */
  lemma HomeAndEnd(env: Env, s: State)
    requires ValidEnv(env) && Inv(env, s) && s.cols >= 1 && |s.Items()| > 0
    ensures var r := Step(env, s, Special("end", false));
            r.outcome == Continue && r.state.cursorIx == |s.Items()| - 1 && r.state.rowOffset == s.rows - 1
    ensures var r := Step(env, s, Special("home", false));
            r.outcome == Continue && r.state.cursorIx == 0 && r.state.rowOffset == 0
  {
    var n := |s.Items()|;
    NamedKeyBindings();
    assert Step(env, s, Special("end", false)) == Jump(s, n - 1);
    CursorRowInGrid(s.width, MaxNameLength(s.Items()), env.cfg.filesSeparator,
                    s.showDetails || s.mode == Search, n, n - 1);
  }

  /** Page down and page up move the cursor by a page (the displayed rows
      times the columns), clamped into the listing, and put its row at the
      top of the window; nothing else changes. */
  lemma PageKeysClampCursor(env: Env, s: State, k: Key)
    requires ValidEnv(env) && s.cols >= 1
    requires Binding(k) == PgUp || Binding(k) == PgDown
    ensures var r := Step(env, s, k);
            var n := |s.Items()|;
            var page := s.cols * RowsDisplayed(s.height);
            var target := if Binding(k) == PgDown then s.cursorIx + page else s.cursorIx - page;
            && r.outcome == Continue
            && r.state == s.(cursorIx := r.state.cursorIx, rowOffset := r.state.rowOffset)
            && (n > 0 ==> 0 <= r.state.cursorIx < n)
            && (n == 0 ==> r.state.cursorIx == -1)
            && (0 <= target < n ==> r.state.cursorIx == target)
            && (n > 0 && target < 0 ==> r.state.cursorIx == 0)
            && (target >= n ==> r.state.cursorIx == n - 1)
            && r.state.rowOffset == CursorRow(r.state.cursorIx, s.cols)
            && IsCursorDisplayed(r.state.cursorIx, s.cols, r.state.rowOffset, s.height)
  {
    var b, n := Binding(k), |s.Items()|;
    var page := s.cols * RowsDisplayed(s.height);
    StepCases(env, s, k);
    assert -(s.cols as int) * RowsDisplayed(s.height) == -page;
    var c := if b == PgDown then CursorAdd(s.cursorIx, page, n) else CursorAdd(s.cursorIx, -page, n);
    assert Step(env, s, k) == Jump(s, c);
  }

  /** "~" in list mode lists the home directory and remembers the path left;
      the cursor and the offset stay as they were. */
  lemma TildeGoesHome(env: Env, s: State)
    requires ValidEnv(env) && s.mode == List
    ensures var r := Step(env, s, Runes("~", false));
            && r.outcome == Continue
            && r.state.path == env.fs.home && r.state.previousPath == s.path
            && r.state.Items() == Listing(env.cfg, env.fs, env.fs.home)
            && r.state.mode == List
            && r.state.cursorIx == s.cursorIx && r.state.rowOffset == s.rowOffset
  {
    CommandRuneBindings('~');
    StepListCommand(env, s, Runes("~", false));
  }

  /** "/" in list mode goes to the root: it is listed, the path left is
      remembered, and the cursor and the view go back to the top. */
  lemma SlashGoesToRoot(env: Env, s: State)
    requires ValidEnv(env) && s.mode == List
    ensures var r := Step(env, s, Runes("/", false));
            && r.outcome == Continue
            && r.state.path == Root && r.state.previousPath == s.path
            && r.state.Items() == Listing(env.cfg, env.fs, Root)
            && r.state.mode == List
            && r.state.cursorIx == 0 && r.state.rowOffset == 0
  {
    CommandRuneBindings('/');
    StepListCommand(env, s, Runes("/", false));
  }

  /** "-" in list mode is the previous-path case: re-list with the two paths
      swapped, then centre the view. */
  lemma PrevSwaps(env: Env, s: State)
    requires ValidEnv(env) && s.mode == List
    ensures var r := Step(env, s, Runes("-", false));
            && r.outcome == Continue
            && r.state.path == s.previousPath && r.state.previousPath == s.path
            && r.state.Items() == Listing(env.cfg, env.fs, s.previousPath)
            && r.state.mode == List
  {
    var k := Runes("-", false);
    CommandRuneBindings('-');
    StepListCommand(env, s, k);
    var t := Calc(env, Ls(env, s.(path := s.previousPath, previousPath := s.path)));
    assert ListCommand(env, s, Prev) == Cont(SetOffsetToMiddle(t));
  }

  /** "-" swaps the current and the previous path; pressed twice it comes back
      to the directory it started from. */
  lemma PreviousPathTwice(env: Env, s: State)
    requires ValidEnv(env) && s.mode == List
    ensures var r1 := Step(env, s, Runes("-", false));
            && r1.outcome == Continue
            && r1.state.path == s.previousPath && r1.state.previousPath == s.path
            && r1.state.Items() == Listing(env.cfg, env.fs, s.previousPath)
    ensures var r2 := Step(env, Step(env, s, Runes("-", false)).state, Runes("-", false));
            && r2.outcome == Continue
            && r2.state.path == s.path && r2.state.previousPath == s.previousPath
            && r2.state.Items() == Listing(env.cfg, env.fs, s.path) && r2.state.mode == List
  {
    PrevSwaps(env, s);
    PrevSwaps(env, Step(env, s, Runes("-", false)).state);
  }

  /** A typed lower-case letter extends the query, filters the listing with
      it, enters search mode and puts the cursor at the top. */
  lemma SearchTypingEffect(env: Env, s: State, c: char)
    requires ValidEnv(env) && 'a' <= c <= 'z'
    ensures var r := SearchTyping(env, s, [c]);
            && r.outcome == Continue
            && r.state.mode == Search
            && r.state.searchInput == s.searchInput + [c]
            && r.state.Items() == SearchResult(s.dirItems, s.searchInput + [c])
            && r.state.cursorIx == 0 && r.state.rowOffset == 0
            && r.state.path == s.path
  {
    var q := s.searchInput + [c];
    var s1 := SearchFilter(s.(searchInput := q), q).(cursorIx := 0, rowOffset := 0);
    assert SearchTyping(env, s, [c]) == Cont(ChangeMode(env, s1, Search));
  }

  lemma LetterTyped(env: Env, s: State, c: char)
    requires ValidEnv(env) && s.mode != EnterPath && 'a' <= c <= 'z'
    ensures Step(env, s, Runes([c], false)) == SearchTyping(env, s, [c])
  {
    var k := Runes([c], false);
    LetterIsUnbound(c);
    StepOther(env, s, k);
  }

  /** Typing a lower-case letter outside path entry starts or extends the
      search: the filter runs on the new query and the cursor goes to the top. */
  lemma TypingSearches(env: Env, s: State, c: char)
    requires ValidEnv(env) && Inv(env, s) && 'a' <= c <= 'z'
    ensures var r := Step(env, s, Runes([c], false));
            && r.outcome == Continue
            && r.state.mode == Search
            && r.state.searchInput == s.searchInput + [c]
            && r.state.Items() == SearchResult(s.dirItems, s.searchInput + [c])
            && r.state.cursorIx == 0 && r.state.rowOffset == 0
            && r.state.path == s.path
  {
    LetterTyped(env, s, c);
    SearchTypingEffect(env, s, c);
  }

  /** "-", "/" and "~" are bound to the previous-path, root and home commands. */
  lemma CommandRuneBindings(c: char)
    requires c == '-' || c == '/' || c == '~'
    ensures Binding(Runes([c], false)) == (if c == '-' then Prev else if c == '/' then Slash else Tilde)
  {
  }

  /** In search mode "-", "/" and "~" are not commands and not search text:
      they change nothing. */
  lemma SearchIgnoresCommandRunes(env: Env, s: State, c: char)
    requires ValidEnv(env) && Inv(env, s) && s.mode == Search
    requires c == '-' || c == '/' || c == '~'
    ensures Step(env, s, Runes([c], false)) == Reaction(s, Continue)
  {
    var k := Runes([c], false);
    CommandRuneBindings(c);
    StepOther(env, s, k);
    assert Other(env, s, k, Binding(k)) == SearchTyping(env, s, [c]);
  }

  lemma AltLetterTyped(env: Env, s: State, c: char)
    requires ValidEnv(env) && s.mode == Search && (c == 'd' || c == 'v')
    ensures Step(env, s, Runes([c], true)) == SearchTyping(env, s, [c])
  {
    var k := Runes([c], true);
    AltLetterBindings(c);
    StepOther(env, s, k);
  }

  /** In search mode alt+d and alt+v are not bound, so their letter is typed
      into the query. */
  lemma SearchTypesAltLetters(env: Env, s: State, c: char)
    requires ValidEnv(env) && Inv(env, s) && s.mode == Search
    requires c == 'd' || c == 'v'
    ensures var r := Step(env, s, Runes([c], true));
            r.state.mode == Search && r.state.searchInput == s.searchInput + [c]
  {
    AltLetterTyped(env, s, c);
    SearchTypingEffect(env, s, c);
  }

  /** Esc and ctrl+u leave the search: back to the directory listing, the query
      cleared, the cursor at the top. */
  lemma EscLeavesSearch(env: Env, s: State, k: Key)
    requires ValidEnv(env) && Inv(env, s) && s.mode == Search
    requires k == Special("esc", false) || k == Special("ctrl+u", false)
    ensures var r := Step(env, s, k);
            && r.outcome == Continue
            && r.state.mode == List && r.state.searchInput == ""
            && r.state.Items() == s.dirItems
            && r.state.cursorIx == 0 && r.state.rowOffset == 0
  {
    NamedKeyBindings();
    StepOther(env, s, k);
    var s1 := s.(cursorIx := 0, rowOffset := 0);
    assert Other(env, s, k, Binding(k)) == Cont(ChangeMode(env, s1, List));
  }

  /** Backspace shortens the query; removing its last letter leaves the search. */
  lemma BackspaceInSearch(env: Env, s: State)
    requires ValidEnv(env) && Inv(env, s) && s.mode == Search
    ensures var r := Step(env, s, Special("backspace", false));
            var q := s.searchInput[..|s.searchInput| - 1];
            && r.outcome == Continue
            && r.state.searchInput == q
            && (q == "" ==> r.state.mode == List && r.state.Items() == s.dirItems)
            && (q != "" ==> r.state.mode == Search && r.state.Items() == SearchResult(s.dirItems, q))
  {
    NamedKeyBindings();
    StepOther(env, s, Special("backspace", false));
    assert Other(env, s, Special("backspace", false), Backspace) == SearchBackspace(env, s);
  }

  /** Enter in list or search mode is the Enter case. */
  lemma EnterIsEnterKey(env: Env, s: State)
    requires ValidEnv(env) && s.mode != EnterPath
    ensures Step(env, s, Special("enter", false)) == EnterKey(env, s)
  {
    NamedKeyBindings();
    StepCases(env, s, Special("enter", false));
  }

  /** Enter on an empty listing does nothing at all. */
  lemma EnterOnEmptyListing(env: Env, s: State)
    requires ValidEnv(env) && Inv(env, s) && |s.Items()| == 0
    ensures Step(env, s, Special("enter", false)) == Reaction(s, Continue)
  {
    EnterIsEnterKey(env, s);
  }

  /** Enter on "./" quits, printing the command that changes to the current directory. */
  lemma EnterOnDotQuits(env: Env, s: State)
    requires ValidEnv(env) && Inv(env, s)
    requires 0 <= s.cursorIx < |s.Items()| && s.Items()[s.cursorIx].name == "./"
    ensures var r := Step(env, s, Special("enter", false));
            r.outcome == Quit(Some(CdCommand(s.path))) && r.state.mode == List
  {
    EnterIsEnterKey(env, s);
    assert CursorEnter(env, s) == Entered(s, Some(CdCommand(s.path)));
  }

  /** cursorEnter on a directory, through the Enter case. */
  lemma EnterKeyOnDirectory(env: Env, s: State)
    requires ValidEnv(env)
    requires 0 <= s.cursorIx < |s.Items()|
    requires var cur := s.Items()[s.cursorIx];
             && cur.name != "./" && cur.name != "../" && cur.info.Some?
             && IsDir(if cur.linkTarget.Some? then cur.linkTarget.value else cur.info.value)
    ensures var cur := s.Items()[s.cursorIx];
            var r := EnterKey(env, s);
            && r.outcome == Continue
            && r.state.path == Join(s.path, cur.name) && r.state.previousPath == s.path
            && r.state.Items() == Listing(env.cfg, env.fs, Join(s.path, cur.name))
            && r.state.cursorIx == 0 && r.state.rowOffset == 0 && r.state.mode == List
  {
    var cur := s.Items()[s.cursorIx];
    var inner := Join(s.path, cur.name);
    var e := CursorEnter(env, s);
    assert e.state == Calc(env, Ls(env, s.(previousPath := s.path, path := inner, cursorIx := 0, rowOffset := 0)));
    assert e.exit == None;
    assert e.state.dirItems == Listing(env.cfg, env.fs, inner);
  }

  /** Enter on a directory (or on a link to one) enters it: the old path
      becomes the previous path and the cursor goes to the top. */
  lemma EnterOnDirectory(env: Env, s: State)
    requires ValidEnv(env) && Inv(env, s)
    requires 0 <= s.cursorIx < |s.Items()|
    requires var cur := s.Items()[s.cursorIx];
             && cur.name != "./" && cur.name != "../" && cur.info.Some?
             && IsDir(if cur.linkTarget.Some? then cur.linkTarget.value else cur.info.value)
    ensures var cur := s.Items()[s.cursorIx];
            var r := Step(env, s, Special("enter", false));
            && r.outcome == Continue
            && r.state.path == Join(s.path, cur.name) && r.state.previousPath == s.path
            && r.state.Items() == Listing(env.cfg, env.fs, Join(s.path, cur.name))
            && r.state.cursorIx == 0 && r.state.rowOffset == 0 && r.state.mode == List
  {
    EnterIsEnterKey(env, s);
    EnterKeyOnDirectory(env, s);
  }

  /** Enter on any other file quits with the command that opens it: running it
      when an execute bit is set, the editor command otherwise. */
  lemma EnterOnFile(env: Env, s: State)
    requires ValidEnv(env) && Inv(env, s)
    requires 0 <= s.cursorIx < |s.Items()|
    requires var cur := s.Items()[s.cursorIx];
             && cur.name != "./" && cur.name != "../" && cur.info.Some?
             && !IsDir(if cur.linkTarget.Some? then cur.linkTarget.value else cur.info.value)
    ensures var cur := s.Items()[s.cursorIx];
            var fi := if cur.linkTarget.Some? then cur.linkTarget.value else cur.info.value;
            var r := Step(env, s, Special("enter", false));
            && r.state.path == s.path
            && (IsFileExecutable(Some(fi)) ==> r.outcome == Quit(Some(ExecCommand(env.cfg, s.path, cur.name))))
            && (!IsFileExecutable(Some(fi)) ==> r.outcome == Quit(Some(EditCommand(env.cfg, s.path, cur.name))))
  {
    EnterIsEnterKey(env, s);
    assert CursorEnter(env, s).state == s;
  }

  /** goParent does nothing at the root. Elsewhere it lists the parent, keeps
      the previous path, and puts the cursor on the first item whose FileInfo
      name is the directory just left (the first item when there is none). */
  lemma GoParentEffect(env: Env, s: State)
    requires ValidEnv(env)
    ensures s.path == Root ==> GoParent(env, s) == s
    ensures s.path != Root ==>
              var r := GoParent(env, s);
              var l := Listing(env.cfg, env.fs, Parent(s.path));
              && r.path == Parent(s.path) && r.previousPath == s.previousPath
              && r.Items() == l && r.mode == s.mode
              && r.cursorIx == FindByInfoName(l, Base(s.path))
              && (l != [] ==> 0 <= r.cursorIx < |l|)
  {
    ParentFixedOnlyAtRoot(s.path);
  }

  /** After going up to a non-empty listing the cursor is on it and on
      screen: centring the view on it is what makes it visible. */
  lemma GoParentShowsCursor(env: Env, s: State)
    requires ValidEnv(env) && s.path != Root
    requires Listing(env.cfg, env.fs, Parent(s.path)) != []
    ensures var r := GoParent(env, s);
            && 0 <= r.cursorIx < |r.Items()|
            && IsCursorDisplayed(r.cursorIx, r.cols, r.rowOffset, r.height)
  {
    GoParentEffect(env, s);
    var r := GoParent(env, s);
    var l := r.Items();
    CursorRowInGrid(r.width, MaxNameLength(l), env.cfg.filesSeparator, r.showDetails || r.mode == Search, |l|, r.cursorIx);
    MiddleOffsetShowsCursor(r.cursorIx, r.cols, r.height, r.rows);
  }

  lemma PlainNameItemIsNotDots(n: string)
    requires IsPlainName(n)
    ensures n + "/" != "./" && n + "/" != "../"
  {
    var t := n + "/";
    assert t[..|n|] == n;
    if |n| == 1 {
      assert "./"[..1] == ".";
    }
    if |n| == 2 {
      assert "../"[..2] == "..";
    }
  }

  lemma AltBackspaceGoesUp(env: Env, s: State)
    requires ValidEnv(env) && s.mode == List
    ensures Step(env, s, Special("backspace", true)) == Cont(GoParent(env, s))
  {
    NamedKeyBindings();
    StepListCommand(env, s, Special("backspace", true));
  }

  /** Entering a directory and pressing alt+backspace comes back: the path is
      the original one again, and the cursor is on the first item of its
      listing whose FileInfo name is the directory's name. */
  lemma EnterThenParent(env: Env, s: State, n: string)
    requires ValidEnv(env) && Inv(env, s) && s.mode == List
    requires IsPlainName(n)
    requires 0 <= s.cursorIx < |s.Items()|
    requires var cur := s.Items()[s.cursorIx];
             cur.name == n + "/" && cur.info.Some? && IsDir(cur.info.value) && cur.linkTarget.None?
    ensures var r1 := Step(env, s, Special("enter", false));
            var r2 := Step(env, r1.state, Special("backspace", true));
            && r1.state.path == s.path + [n]
            && r2.outcome == Continue
            && r2.state.path == s.path && r2.state.previousPath == s.path
            && r2.state.Items() == Listing(env.cfg, env.fs, s.path)
            && r2.state.cursorIx == FindByInfoName(Listing(env.cfg, env.fs, s.path), n)
  {
    PlainNameItemIsNotDots(n);
    JoinPlainName(s.path, n);
    ParentOfJoin(s.path, n);
    EnterOnDirectory(env, s);
    var r1 := Step(env, s, Special("enter", false));
    AltBackspaceGoesUp(env, r1.state);
    GoParentEffect(env, r1.state);
  }

  /** Going up lands on the child's own entry when nothing earlier in the
      parent's listing carries its FileInfo name: the parent holds it under
      that name and no other child does, and no "../" entry shows, or it
      shows the grandparent under another name. */
  lemma GoParentLandsOnChild(env: Env, s: State, e: DirEntry)
    requires ValidEnv(env) && s.path != Root
    requires e in env.fs.readDir(Parent(s.path)) && e.info.name == Base(s.path)
    requires forall d :: d in env.fs.readDir(Parent(s.path)) && d.info.name == Base(s.path) ==> d == e
    requires || Parent(s.path) == Root || !env.cfg.addTwoDot
             || env.fs.parentStat(Parent(s.path)).info.name != Base(s.path)
    ensures var r := GoParent(env, s);
            0 <= r.cursorIx < |r.Items()| && r.Items()[r.cursorIx] == EntryItem(e)
  {
    GoParentEffect(env, s);
    FirstWithInfoNameIsEntry(env.cfg, env.fs, Parent(s.path), Base(s.path), e);
  }

  lemma FirstWithInfoNameIsEntry(cfg: Config, fs: Fs, p: Path, n: string, e: DirEntry)
    requires e in fs.readDir(p) && e.info.name == n
    requires forall d :: d in fs.readDir(p) && d.info.name == n ==> d == e
    requires p == Root || !cfg.addTwoDot || fs.parentStat(p).info.name != n
    ensures var l := Listing(cfg, fs, p);
            var c := FindByInfoName(l, n);
            c < |l| && l[c] == EntryItem(e)
  {
    var rel := RelDirs(cfg, fs, p);
    ListingSameItems(cfg, fs, p);
    assert forall y :: y in rel ==> !HasInfoName(y, n);
    FirstWithInfoNameAmong(Listing(cfg, fs, p), rel, fs.readDir(p), n, e);
  }

  lemma FirstWithInfoNameAmong(l: seq<Item>, rel: seq<Item>, es: seq<DirEntry>, n: string, e: DirEntry)
    requires forall x :: x in l <==> x in rel + EntryItems(es)
    requires forall y :: y in rel ==> !HasInfoName(y, n)
    requires e in es && e.info.name == n
    requires forall d :: d in es && d.info.name == n ==> d == e
    ensures var c := FindByInfoName(l, n);
            c < |l| && l[c] == EntryItem(e)
  {
    var i :| 0 <= i < |es| && es[i] == e;
    assert EntryItems(es)[i] == EntryItem(e);
    assert EntryItem(e) in rel + EntryItems(es);
    var j :| 0 <= j < |l| && l[j] == EntryItem(e);
    assert HasInfoName(l[j], n);
    var x := l[FindByInfoName(l, n)];
    assert x in l && HasInfoName(x, n);
    assert x in EntryItems(es);
    var m :| 0 <= m < |es| && EntryItems(es)[m] == x;
    assert es[m] in es;
  }

  /** ...but with "../" shown it carries the grandparent's FileInfo, and when
      the grandparent has the same name as the directory left (going up from
      /a/b/a to /a/b, say) the cursor lands on "../" instead. */
  lemma GoParentCanLandOnParentEntry(env: Env, s: State)
    requires ValidEnv(env) && s.path != Root && Parent(s.path) != Root && env.cfg.addTwoDot
    requires var st := env.fs.parentStat(Parent(s.path));
             st.info.name == Base(s.path) && IsDir(st.info)
    ensures var r := GoParent(env, s);
            0 <= r.cursorIx < |r.Items()| && r.Items()[r.cursorIx].name == "../"
  {
    GoParentEffect(env, s);
    var p, n := Parent(s.path), Base(s.path);
    var l := Listing(env.cfg, env.fs, p);
    ListingStartsWithRelDirs(env.cfg, env.fs, p);
    var k := if env.cfg.addOneDot then 1 else 0;
    assert HasInfoName(l[k], n);
  }

  /** The selection toggle flips the mark of the item under the cursor (never
      of "./"), in the listing on screen only; toggling twice undoes it. */
  lemma ToggleSelectionEffect(env: Env, s: State)
    requires ValidEnv(env) && 0 <= s.cursorIx < |s.Items()|
    ensures var r := ToggleSelection(s);
            var c := s.cursorIx;
            && |r.Items()| == |s.Items()| && r.view == s.view
            && (forall j :: 0 <= j < |s.Items()| && j != c ==> r.Items()[j] == s.Items()[j])
            && r.Items()[c] == (if s.Items()[c].info.None? then s.Items()[c]
                                else s.Items()[c].(isSelected := !s.Items()[c].isSelected))
            && (s.view == FilteredView ==> r.dirItems == s.dirItems)
            && (s.view == DirView ==> r.filteredItems == s.filteredItems)
            && ToggleSelection(r) == s
  {
  }

  /** Toggling the details lays the grid out again and centres the view, so
      a cursor on the listing stays on screen in the new layout. */
  lemma ToggleDetailsShowsCursor(env: Env, s: State)
    requires ValidEnv(env) && 0 <= s.cursorIx < |s.Items()|
    ensures var r := ToggleDetails(env, s);
            && r.cursorIx == s.cursorIx && r.Items() == s.Items() && r.showDetails == !s.showDetails
            && IsCursorDisplayed(r.cursorIx, r.cols, r.rowOffset, r.height)
  {
    var r := ToggleDetails(env, s);
    CursorRowInGrid(r.width, MaxNameLength(r.Items()), env.cfg.filesSeparator, r.showDetails || r.mode == Search,
                    |r.Items()|, r.cursorIx);
    MiddleOffsetShowsCursor(r.cursorIx, r.cols, r.height, r.rows);
  }

  /** Toggling the details twice brings back the same layout. */
  lemma ToggleDetailsTwice(env: Env, s: State)
    requires ValidEnv(env) && Inv(env, s) && s.cols >= 1
    ensures var r := ToggleDetails(env, ToggleDetails(env, s));
            r.showDetails == s.showDetails && r.cols == s.cols && r.colSize == s.colSize && r.rows == s.rows
  {
  }

  /** The details view, like search mode, is a single column as wide as the screen. */
  lemma DetailsAreOneColumn(env: Env, s: State)
    requires ValidEnv(env) && !s.showDetails
    ensures var r := ToggleDetails(env, s);
            r.showDetails && r.cols == 1 && r.colSize == s.width && r.rows == |s.Items()|
  {
  }
}
