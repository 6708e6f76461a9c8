/// What cmd/cds/model.go guarantees, proved on the functions of CdsSpec: the
/// layout of its own test, the quit keys, keys ignored outside the list
/// state, the "../" entry, cursorEnter, goBack, the two toggles and the
/// arrow keys keeping the cursor on screen.
module CdsProps {
  import opened Wrappers
  import opened Grid
  import opened Paths
  import opened Grouping
  import opened Entries
  import opened Tea
  import opened CdsSpec

  /** The stored layout is the one calculateColsAndRows gives for the state. */
  predicate LayoutMatches(env: Env, s: State)
    requires ValidEnv(env)
  {
    var l := LayoutOf(env, s);
    s.cols == l.cols && s.colSize == l.colSize && s.rows == l.rows
  }

  function Named(name: string): CdsItem
  {
    CdsItem(name, None, false)
  }

  /** The two layouts the source's test expects, with a separator of 2 on a
      20-column screen: three short names fit in three columns of 6; five
      7-byte names take two columns of 10 over three rows. */
  lemma TestLayouts(env: Env, s: State)
    requires env.cfg.filesSeparator == 2 && s.width == 20 && !s.showDetails
    ensures var t := Calc(env, s.(items := [Named("1"), Named("12"), Named("123/")]));
            t.rows == 1 && t.width == 20 && t.cols == 3 && t.colSize == 6
    ensures var n := Named("1234567");
            var t := Calc(env, s.(items := [n, n, n, n, n]));
            t.rows == 3 && t.width == 20 && t.cols == 2 && t.colSize == 10
  {
    var a := [Named("1"), Named("12"), Named("123/")];
    assert MaxNameLength(a) == 4 by {
      assert |a[2].name| == 4;
    }
    var n := Named("1234567");
    var b := [n, n, n, n, n];
    assert MaxNameLength(b) == 7 by {
      assert |b[0].name| == 7;
    }
    LayoutExamples();
  }

  /** Key messages do nothing unless the program is in the list state. */
  lemma KeysIgnoredOutsideList(env: Env, s: State, k: Key)
    requires ValidEnv(env) && s.state != StateList
    ensures Update(env, s, KeyPress(k)) == Cont(s)
  {
  }

  /** Esc and ctrl+c both quit, printing `cd "<path>"`, and change nothing. */
  lemma QuitKeysPrintCd(env: Env, s: State)
    requires ValidEnv(env)
    ensures Step(env, s, Special("esc", false)) == Reaction(s, Quit(Some(CdCommand(s.path))))
    ensures Step(env, s, Special("ctrl+c", false)) == Reaction(s, Quit(Some(CdCommand(s.path))))
  {
    assert KeyString(Special("esc", false)) == "esc";
    assert KeyString(Special("ctrl+c", false)) == "ctrl+c";
  }

  /** A child's entry is named "../" only if the child is called "..". */
  lemma ChildItemsNoParent(es: seq<DirEntry>)
    requires forall e :: e in es ==> e.info.name != ".." && '/' !in e.info.name
    ensures forall i :: 0 <= i < |es| ==> ChildItems(es)[i].name != "../"
    ensures forall i :: 0 <= i < |es| ==> ChildItems(es)[i].info.Some?
  {
    forall i | 0 <= i < |es| ensures ChildItem(es[i]).name != "../" {
      assert es[i] in es;
      var n := es[i].info.name;
      assert (n + "/")[..|n|] == n;
      assert "../"[2] == '/';
    }
  }

  /** No item without FileInfo: the first bucket is empty. */
  lemma {:induction false} NoRankZero(s: seq<CdsItem>)
    requires forall i :: 0 <= i < |s| ==> s[i].info.Some?
    ensures Bucket(s, CdsSpec.FolderRank, 0) == []
  {
    if s != [] {
      NoRankZero(s[1..]);
    }
  }

  /** The first item of the directory bucket, when the sequence starts with a directory. */
  lemma BucketStartsWithHead(s: seq<CdsItem>, k: nat)
    requires s != [] && CdsSpec.FolderRank(s[0]) == k
    ensures Bucket(s, CdsSpec.FolderRank, k) != [] && Bucket(s, CdsSpec.FolderRank, k)[0] == s[0]
  {
  }

  /** The listing starts with the "../" entry exactly when the path is not
      the root; the parent's FileInfo is a directory and no child is named
      "..", so folders-first sorting keeps it first. */
  lemma ListingStartsWithParent(cfg: Config, fs: Fs, p: Path)
    requires forall e :: e in fs.readDir(p) ==> e.info.name != ".." && '/' !in e.info.name
    requires IsDir(fs.parentStat(p).info)
    ensures var l := CdsSpec.Listing(cfg, fs, p);
            (|l| > 0 && l[0].name == "../") <==> p != Root
  {
    var all := ParentEntry(fs, p) + ChildItems(fs.readDir(p));
    var l := CdsSpec.Listing(cfg, fs, p);
    ChildItemsNoParent(fs.readDir(p));
    if p != Root {
      if cfg.foldersFirst {
        assert forall i :: 0 <= i < |all| ==> all[i].info.Some? by {
          forall i | 0 <= i < |all| ensures all[i].info.Some? {
            if i > 0 {
              assert all[i] == ChildItems(fs.readDir(p))[i - 1];
            }
          }
        }
        NoRankZero(all);
        BucketStartsWithHead(all, 1);
        assert l == [] + Bucket(all, CdsSpec.FolderRank, 1) + Bucket(all, CdsSpec.FolderRank, 2);
      }
    } else {
      assert all == ChildItems(fs.readDir(p));
      if |l| > 0 {
        assert l[0] in all;
      }
    }
  }

  /** Enter on a file changes nothing. */
  lemma EnterOnFile(env: Env, s: State)
    requires ValidEnv(env) && 0 <= s.cursorIx < |s.items|
    requires s.items[s.cursorIx].info.Some? && !IsDir(s.items[s.cursorIx].info.value)
    ensures Step(env, s, Special("enter", false)) == Cont(s)
  {
    assert KeyString(Special("enter", false)) == "enter";
  }

  /** Enter on the entry "n/" of a directory moves into it: the path gains
      the name, the new listing is shown from its first item, laid out. */
  lemma EnterOnDirectory(env: Env, s: State, n: string)
    requires ValidEnv(env) && 0 <= s.cursorIx < |s.items| && IsPlainName(n)
    requires s.items[s.cursorIx].name == n + "/"
    requires s.items[s.cursorIx].info.Some? && IsDir(s.items[s.cursorIx].info.value)
    ensures var r := Step(env, s, Special("enter", false));
            && r.outcome == Continue
            && r.state.path == s.path + [n]
            && r.state.cursorIx == 0 && r.state.rowOffset == 0
            && r.state.items == CdsSpec.Listing(env.cfg, env.fs, s.path + [n])
            && LayoutMatches(env, r.state)
  {
    StepEnter(env, s);
    ReactEnter(env, s);
    JoinPlainName(s.path, n);
  }

  /** The bindings of the special keys used below, one key at a time. */
  lemma StepEnter(env: Env, s: State)
    requires ValidEnv(env)
    ensures Step(env, s, Special("enter", false)) == React(env, s, Enter)
  {
    assert Binding(Special("enter", false)) == Enter;
  }

  lemma ReactEnter(env: Env, s: State)
    requires ValidEnv(env)
    ensures React(env, s, Enter) == ItemKey(env, s, Enter)
  {
  }

  lemma StepBack(env: Env, s: State)
    requires ValidEnv(env)
    ensures Step(env, s, Special("backspace", false)) == React(env, s, Back)
  {
    assert Binding(Special("backspace", false)) == Back;
  }

  lemma ReactBack(env: Env, s: State)
    requires ValidEnv(env)
    ensures React(env, s, Back) == Cont(GoBack(env, s))
  {
  }

  lemma StepHome(env: Env, s: State)
    requires ValidEnv(env)
    ensures Step(env, s, Special("home", false)) == React(env, s, Home)
  {
    assert Binding(Special("home", false)) == Home;
  }

  lemma StepEnd(env: Env, s: State)
    requires ValidEnv(env)
    ensures Step(env, s, Special("end", false)) == React(env, s, End)
  {
    assert Binding(Special("end", false)) == End;
  }

  /** Entering the directory "../" is going back. */
  lemma EnterParentIsGoBack(env: Env, s: State)
    requires ValidEnv(env) && 0 <= s.cursorIx < |s.items|
    requires s.items[s.cursorIx].name == "../"
    requires s.items[s.cursorIx].info.Some? && IsDir(s.items[s.cursorIx].info.value)
    ensures CursorEnter(env, s) == GoBack(env, s)
  {
    JoinDots(s.path);
    var moved := s.(path := Join(s.path, ".."), cursorIx := 0, rowOffset := 0);
    assert s.(path := Join(s.path, s.items[s.cursorIx].name), cursorIx := 0, rowOffset := 0) == moved;
  }

  /** Enter on "../" goes up, like backspace. */
  lemma EnterOnParentEntry(env: Env, s: State)
    requires ValidEnv(env) && 0 <= s.cursorIx < |s.items|
    requires s.items[s.cursorIx].name == "../"
    requires s.items[s.cursorIx].info.Some? && IsDir(s.items[s.cursorIx].info.value)
    ensures Step(env, s, Special("enter", false)) == Step(env, s, Special("backspace", false))
    ensures Step(env, s, Special("enter", false)).state.path == Parent(s.path)
  {
    StepEnter(env, s);
    ReactEnter(env, s);
    StepBack(env, s);
    ReactBack(env, s);
    EnterParentIsGoBack(env, s);
    GoBackIsParent(env, s);
  }

  /** goBack: the parent of the path, listed from the top; at the root the
      root is listed again. */
  lemma GoBackIsParent(env: Env, s: State)
    requires ValidEnv(env)
    ensures var t := GoBack(env, s);
            && t.path == Parent(s.path)
            && t.cursorIx == 0 && t.rowOffset == 0
            && t.items == CdsSpec.Listing(env.cfg, env.fs, Parent(s.path))
            && LayoutMatches(env, t)
  {
    JoinDots(s.path);
  }

  /** toggleSelection flips the mark of the item under the cursor, unless it
      has no FileInfo, and changes nothing else. */
  lemma ToggleSelectionEffect(s: State)
    requires 0 <= s.cursorIx < |s.items|
    ensures var t := ToggleSelection(s);
            && t == s.(items := t.items)
            && |t.items| == |s.items|
            && (forall i :: 0 <= i < |s.items| && i != s.cursorIx ==> t.items[i] == s.items[i])
            && t.items[s.cursorIx].name == s.items[s.cursorIx].name
            && t.items[s.cursorIx].info == s.items[s.cursorIx].info
            && (t.items[s.cursorIx].isSelected
                == if s.items[s.cursorIx].info.None? then s.items[s.cursorIx].isSelected
                   else !s.items[s.cursorIx].isSelected)
  {
  }

  /** The names, and so the layout, do not depend on the selection marks. */
  lemma {:induction false} MaxNameLengthOfNames(a: seq<CdsItem>, b: seq<CdsItem>)
    requires |a| == |b| && forall i :: 0 <= i < |a| ==> a[i].name == b[i].name
    ensures MaxNameLength(a) == MaxNameLength(b)
  {
    if a != [] {
      MaxNameLengthOfNames(a[1..], b[1..]);
    }
  }

  /** Selecting an item keeps the layout. */
  lemma ToggleKeepsLayout(env: Env, s: State)
    requires ValidEnv(env) && 0 <= s.cursorIx < |s.items| && LayoutMatches(env, s)
    ensures LayoutMatches(env, ToggleSelection(s))
  {
    MaxNameLengthOfNames(s.items, ToggleSelection(s).items);
  }

  /** toggleDetails flips the details view and lays the grid out again,
      leaving the cursor and the offset alone; doing it twice restores a
      laid-out state. */
  lemma ToggleDetailsEffect(env: Env, s: State)
    requires ValidEnv(env)
    ensures var t := ToggleDetails(env, s);
            && t.showDetails == !s.showDetails
            && t.cursorIx == s.cursorIx && t.rowOffset == s.rowOffset
            && t.items == s.items && t.path == s.path
            && LayoutMatches(env, t)
    ensures var t := ToggleDetails(env, s);
            t.showDetails ==> t.cols == 1 && t.rows == |s.items| && t.colSize == s.width
    ensures LayoutMatches(env, s) ==> ToggleDetails(env, ToggleDetails(env, s)) == s
  {
  }

  /** A laid-out grid has just enough rows for the items. */
  lemma LayoutFitsItems(env: Env, s: State)
    requires ValidEnv(env) && LayoutMatches(env, s)
    ensures s.rows * s.cols >= |s.items|
    ensures s.rows == 0 || (s.rows - 1) * s.cols < |s.items|
  {
    GridLayoutBounds(s.width, MaxNameLength(s.items), env.cfg.filesSeparator, s.showDetails, |s.items|);
  }

  /** One arrow step on a grid with just enough rows. */
  lemma ArrowOnScreen(s: State, delta: int, scroll: int)
    requires s.cols >= 1 && 0 <= s.cursorIx < |s.items|
    requires s.rows * s.cols >= |s.items| && (s.rows == 0 || (s.rows - 1) * s.cols < |s.items|)
    requires IsCursorDisplayed(s.cursorIx, s.cols, s.rowOffset, s.height)
    requires ((delta == -1 || delta == -(s.cols as int)) && scroll == -1) || ((delta == 1 || delta == s.cols) && scroll == 1)
    ensures var r := Arrow(s, delta, scroll);
            && r.outcome == Continue
            && r.state == s.(cursorIx := r.state.cursorIx, rowOffset := r.state.rowOffset)
            && 0 <= r.state.cursorIx < |s.items|
            && IsCursorDisplayed(r.state.cursorIx, s.cols, r.state.rowOffset, s.height)
            && (IsCursorDisplayed(r.state.cursorIx, s.cols, s.rowOffset, s.height) ==> r.state.rowOffset == s.rowOffset)
            && (s.rowOffset >= 0 ==> r.state.rowOffset == s.rowOffset || r.state.rowOffset == s.rowOffset + scroll)
  {
    ArrowKeepsCursorVisible(s.cursorIx, |s.items|, s.cols, s.rows, s.rowOffset, s.height, delta, scroll);
  }

  /** The arrow keys keep a cursor that is on the listing and on screen
      there, given a layout that fits the items; only the cursor and the
      offset change. */
  lemma ArrowKeepsCursorOnScreen(env: Env, s: State, k: Key)
    requires ValidEnv(env) && s.cols >= 1 && LayoutMatches(env, s)
    requires 0 <= s.cursorIx < |s.items|
    requires IsCursorDisplayed(s.cursorIx, s.cols, s.rowOffset, s.height)
    requires Binding(k) == Left || Binding(k) == Right || Binding(k) == Up || Binding(k) == Down
    ensures var r := Step(env, s, k);
            && r.outcome == Continue
            && r.state == s.(cursorIx := r.state.cursorIx, rowOffset := r.state.rowOffset)
            && 0 <= r.state.cursorIx < |s.items|
            && IsCursorDisplayed(r.state.cursorIx, s.cols, r.state.rowOffset, s.height)
            && (IsCursorDisplayed(r.state.cursorIx, s.cols, s.rowOffset, s.height) ==> r.state.rowOffset == s.rowOffset)
            && (s.rowOffset >= 0 ==>
                  r.state.rowOffset == s.rowOffset
                  || r.state.rowOffset == s.rowOffset + (if Binding(k) == Left || Binding(k) == Up then -1 else 1))
  {
    var b := Binding(k);
    LayoutFitsItems(env, s);
    var cols: int := s.cols;
    var delta := if b == Left then -1 else if b == Right then 1 else if b == Up then -cols else cols;
    var scroll := if b == Left || b == Up then -1 else 1;
    assert Step(env, s, k) == React(env, s, b) == Arrow(s, delta, scroll);
    ArrowOnScreen(s, delta, scroll);
  }

  /** The last item is on the last row. */
  lemma LastItemOnLastRow(env: Env, s: State)
    requires ValidEnv(env) && s.cols >= 1 && LayoutMatches(env, s) && |s.items| > 0
    ensures CursorRow(|s.items| - 1, s.cols) == s.rows - 1
  {
    LayoutFitsItems(env, s);
    RowsOfGrid(|s.items| - 1, s.cols, s.rows, |s.items|);
  }

  /** Home goes to the first item and the top. */
  lemma HomeKey(env: Env, s: State)
    requires ValidEnv(env)
    ensures Step(env, s, Special("home", false)) == Cont(s.(cursorIx := 0, rowOffset := 0))
  {
    StepHome(env, s);
  }

  /** End goes to the last item and scrolls so that its row, the last one, is the top. */
  lemma EndKey(env: Env, s: State)
    requires ValidEnv(env) && s.cols >= 1 && LayoutMatches(env, s) && |s.items| > 0
    ensures var r := Step(env, s, Special("end", false));
            r.outcome == Continue && r.state.cursorIx == |s.items| - 1 && r.state.rowOffset == s.rows - 1
  {
    StepEnd(env, s);
    assert React(env, s, End) == Jump(s, |s.items| - 1);
    LastItemOnLastRow(env, s);
  }

  /** Page up and page down move the cursor by a page (the displayed rows
      times the columns), clamped into the listing whatever it was before,
      and put its row at the top of the window; an empty listing leaves it
      at -1, and nothing else changes. */
  lemma PageKeysClampCursor(env: Env, s: State, k: Key)
    requires ValidEnv(env) && s.cols >= 1
    requires Binding(k) == PgUp || Binding(k) == PgDown
    ensures var r := Step(env, s, k);
            var n := |s.items|;
            var page := s.cols * RowsDisplayed(s.height);
            var target := if Binding(k) == PgDown then s.cursorIx + page else s.cursorIx - page;
            && r.outcome == Continue
            && r.state == s.(cursorIx := r.state.cursorIx, rowOffset := r.state.rowOffset)
            && (n > 0 ==> 0 <= r.state.cursorIx < n)
            && (n == 0 ==> r.state.cursorIx == -1)
            && (0 <= target < n ==> r.state.cursorIx == target)
            && (n > 0 && target < 0 ==> r.state.cursorIx == 0)
            && (target >= n ==> r.state.cursorIx == n - 1)
            && r.state.rowOffset == CursorRow(r.state.cursorIx, s.cols)
            && IsCursorDisplayed(r.state.cursorIx, s.cols, r.state.rowOffset, s.height)
  {
    var b, n := Binding(k), |s.items|;
    var page := s.cols * RowsDisplayed(s.height);
    assert -(s.cols as int) * RowsDisplayed(s.height) == -page;
    var c := if b == PgDown then CursorAdd(s.cursorIx, page, n) else CursorAdd(s.cursorIx, -page, n);
    assert Step(env, s, k) == Jump(s, c);
  }

}
