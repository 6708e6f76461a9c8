/// The browser of cmd/cd-surfer/model.go as the object it is: a Model whose
/// methods update its fields in place. The displayed `items` is one of the two
/// listing arrays (the directory listing or the search result), as the Go
/// slice aliases one of them; selecting an item writes into that array.
/// Every method is proved to follow the functions of SurferSpec, so the
/// properties proved in SurferProps hold of the object.
module Surfer {
  import opened Wrappers
  import opened Misc
  import opened Grid
  import opened Paths
  import opened Grouping
  import opened Entries
  import opened Search
  import opened Tea
  import opened SurferSpec
  import opened SurferProps

  /** The filter loop of searchFilter: each item whose lower-cased name
      contains the lower-cased input, marked where it occurs. */
  method FilterItems(dir: seq<Item>, input: string) returns (filtered: seq<Item>)
    ensures filtered == Matching(dir, input)
  {
    filtered := [];
    assert dir[..0] == [];
    for i := 0 to |dir|
      invariant filtered == Matching(dir[..i], input)
    {
      var v := dir[i];
      var a := ToLower(input);
      var b := ToLower(v.name);
      var foundIx := IndexOf(b, a);
      MatchingPrefixStep(dir, i, input);
      if foundIx > -1 {
        v := v.(emStart := foundIx, emEnd := foundIx + |a|);
        assert v == Mark(dir[i], input);
        filtered := filtered + [v];
      }
    }
    assert dir[..|dir|] == dir;
  }

  class Model {
    /** The configuration and the filesystem, fixed for the whole run. */
    const env: Env

    var path: Path
    var previousPath: Path
    var inputPath: string
    var cursorIx: int
    var rowOffset: int
    var colSize: int
    var cols: nat
    var rows: int
    var items: array<Item>
    var dirItems: array<Item>
    var filteredItems: array<Item>
    var width: nat
    var height: nat
    var mode: Mode
    var showDetails: bool
    var searchInput: string

    /** The two listings are distinct arrays. Between a search filter and the
        mode change that follows it, `items` may still be the previous result. */
    predicate Separate()
      reads this
    {
      ValidEnv(env) && dirItems != filteredItems
    }

    /** The displayed items are one of the two listings. */
    predicate Valid()
      reads this
    {
      Separate() && (items == dirItems || items == filteredItems)
    }

    /** The state as a value. */
    ghost function Abs(): State
      reads this, dirItems, filteredItems
    {
      State(path, previousPath, inputPath, cursorIx, rowOffset, colSize, cols, rows,
            dirItems[..], filteredItems[..], if items == dirItems then DirView else FilteredView,
            width, height, mode, showDetails, searchInput)
    }

    /** Init: the working directory listed, with an 80x10 screen assumed until
        the first window-size message. */
    constructor (env: Env, cwd: Path)
      requires ValidEnv(env)
      ensures Valid() && Abs() == Init(env, cwd)
    {
      this.env := env;
      path, previousPath, inputPath := cwd, cwd, "";
      cursorIx, rowOffset, colSize, cols, rows := 0, 0, 0, 0, 0;
      width, height := 80, 10;
      mode, showDetails, searchInput := List, env.cfg.showDetails, "";
      filteredItems := new Item[0];
      dirItems := new Item[0];
      items := dirItems;
      new;
      Ls();
    }

    /** Ls: reads the current directory into a new array, which becomes both
        the directory listing and the displayed items. */
    method Ls()
      requires ValidEnv(env)
      modifies this
      ensures Valid() && items == dirItems && fresh(dirItems) && filteredItems == old(filteredItems)
      ensures Abs() == SurferSpec.Ls(env, old(Abs()))
    {
      var files := env.fs.readDir(path);
      var ret := RelDirs(env.cfg, env.fs, path);
      for i := 0 to |files|
        invariant ret == RelDirs(env.cfg, env.fs, path) + EntryItems(files[..i])
      {
        assert EntryItems(files[..i + 1]) == EntryItems(files[..i]) + [EntryItem(files[i])];
        ret := ret + [EntryItem(files[i])];
      }
      assert files[..|files|] == files;
      if env.cfg.foldersFirst {
        ret := SortItemsFoldersFirst(ret);
      }
      dirItems := new Item[|ret|](i requires 0 <= i < |ret| => ret[i]);
      items := dirItems;
    }

    /** maxItemLength: the longest name among the displayed items. */
    method MaxItemLength() returns (max: nat)
      ensures max == MaxNameLength(items[..])
    {
      max := 0;
      for i := 0 to items.Length
        invariant forall j :: 0 <= j < i ==> |items[j].name| <= max
        invariant max == 0 || exists j :: 0 <= j < i && max == |items[j].name|
      {
        if |items[i].name| > max {
          max := |items[i].name|;
        }
      }
      var m := MaxNameLength(items[..]);
      if items.Length > 0 {
        var j :| 0 <= j < items.Length && m == |items[..][j].name|;
        assert items[..][j] == items[j];
      }
    }

    /** calculateColsAndRows: one column in the details view and in search
        mode, and when the widest name does not fit; otherwise as many columns
        as fit. */
    method CalculateColsAndRows()
      requires Valid()
      modifies this
      ensures Valid() && items == old(items)
      ensures Abs() == Calc(env, old(Abs()))
    {
      if showDetails || mode == Search {
        cols, colSize, rows := 1, width, items.Length;
        return;
      }
      var m := MaxItemLength();
      var maxColSize := m + env.cfg.filesSeparator;
      if maxColSize >= width {
        cols, colSize, rows := 1, width, items.Length;
        return;
      }
      cols, colSize, rows := MultiColumnLayout(width, m, env.cfg.filesSeparator, items.Length);
    }

    /** cursorAdd. */
    method CursorAdd(val: int)
      requires Valid()
      modifies this
      ensures Valid() && items == old(items)
      ensures Abs() == old(Abs()).(cursorIx := Grid.CursorAdd(old(cursorIx), val, items.Length))
    {
      cursorIx := MinMax(cursorIx + val, 0, items.Length - 1);
    }

    /** cursorRowIx, with Go's truncating division (the source panics when
        cols is 0; callers check that first). */
    method CursorRowIx() returns (r: int)
      requires cols >= 1
      ensures r == CursorRow(cursorIx, cols)
    {
      if cursorIx >= 0 {
        r := cursorIx / cols;
      } else {
        r := -((-cursorIx) / cols);
      }
    }

    /** rowsDisplayed. */
    method RowsDisplayed() returns (r: int)
      ensures r == Grid.RowsDisplayed(height)
    {
      r := Max(height - 5, 1);
    }

    /** isCursorDisplayed. */
    method IsCursorDisplayed() returns (b: bool)
      requires cols >= 1
      ensures b == Grid.IsCursorDisplayed(cursorIx, cols, rowOffset, height)
    {
      var cursor := CursorRowIx();
      var shown := RowsDisplayed();
      b := cursor < rowOffset + shown && cursor >= rowOffset;
    }

    /** addRowOffset. */
    method AddRowOffset(val: int)
      requires Valid()
      modifies this
      ensures Valid() && items == old(items)
      ensures Abs() == old(Abs()).(rowOffset := Grid.AddRowOffset(old(rowOffset), val, rows))
    {
      rowOffset := MinMax(rowOffset + val, 0, rows - 1);
    }

    /** setOffsetToMiddleScreen. */
    method SetOffsetToMiddleScreen()
      requires Valid() && cols >= 1
      modifies this
      ensures Valid() && items == old(items)
      ensures Abs() == SetOffsetToMiddle(old(Abs()))
    {
      rowOffset := 0;
      var row := CursorRowIx();
      var shown := RowsDisplayed();
      AddRowOffset(row - shown / 2);
    }

    /** changeMode: search mode shows the filtered items, list mode the
        directory with the query cleared; both lay the grid out again. */
    method ChangeMode(m: Mode)
      requires Separate()
      requires m == EnterPath ==> Valid()
      modifies this
      ensures Valid()
      ensures Abs() == SurferSpec.ChangeMode(env, old(Abs()), m)
    {
      ghost var s0 := Abs();
      if m == Search {
        mode := Search;
        items := filteredItems;
        assert Abs() == s0.(mode := Search, view := FilteredView);
        CalculateColsAndRows();
      } else if m == List {
        searchInput := "";
        mode := List;
        items := dirItems;
        assert Abs() == s0.(searchInput := "", mode := List, view := DirView);
        CalculateColsAndRows();
      } else {
        inputPath := "/";
        mode := EnterPath;
      }
    }

    /** searchFilter: the items of the directory whose name contains the
        input, ignoring case, each marked where it occurs; then those that
        start with the input first. The displayed items are left as they were
        until the mode changes. */
    method SearchFilter(input: string)
      requires Separate()
      modifies this
      ensures Separate() && fresh(filteredItems)
      ensures items == old(items) && dirItems == old(dirItems)
      ensures Abs() == SurferSpec.SearchFilter(old(Abs()), input)
    {
      ghost var s0 := Abs();
      var dir := dirItems[..];
      var filtered := FilterItems(dir, input);
      // the stable outcome of sort.Slice with the prefix rank
      filtered := Grouped(filtered, PrefixRank(input));
      assert filtered == SearchResult(s0.dirItems, input);
      filteredItems := new Item[|filtered|](j requires 0 <= j < |filtered| => filtered[j]);
      assert filteredItems[..] == filtered;
      assert Abs() == s0.(filteredItems := filtered);
    }

    /** ls followed by calculateColsAndRows, as every change of directory does. */
    method Relist()
      requires Valid()
      modifies this
      ensures Valid()
      ensures Abs() == Calc(env, SurferSpec.Ls(env, old(Abs())))
    {
      Ls();
      CalculateColsAndRows();
    }

    /** The index goParent moves the cursor to: the first item whose FileInfo
        has the given name, 0 when none has. */
    method CursorFromName(name: string) returns (cursorFromName: nat)
      ensures cursorFromName == FindByInfoName(items[..], name)
    {
      for k := 0 to items.Length
        invariant forall j :: 0 <= j < k ==> !HasInfoName(items[..][j], name)
      {
        var v := items[k];
        if v.info.Some? && v.info.value.name == name {
          assert HasInfoName(items[..][k], name);
          return k;
        }
      }
      return 0;
    }

    /** The cursor on the item of that name. */
    method MoveCursorToName(name: string)
      requires Valid()
      modifies this
      ensures Valid() && items == old(items)
      ensures Abs() == old(Abs()).(cursorIx := FindByInfoName(old(Abs()).Items(), name))
    {
      ghost var s0 := Abs();
      assert s0.Items() == items[..];
      cursorIx := CursorFromName(name);
    }

    /** goParent: nothing at the root; otherwise list the parent, put the
        cursor on the first item whose FileInfo name is the name of the
        directory just left, and centre it. */
    method GoParent()
      requires Valid()
      modifies this
      ensures Valid()
      ensures Abs() == SurferSpec.GoParent(env, old(Abs()))
    {
      var newPath := Join(path, "..");
      JoinDots(path);
      if newPath == path {
        return;
      }
      ghost var s0 := Abs();
      var prevName := Base(path);
      path := newPath;
      assert Abs() == s0.(path := Parent(s0.path));
      Relist();
      MoveCursorToName(prevName);
      SetOffsetToMiddleScreen();
    }

    /** goToPath. */
    method GoToPath(p: Path)
      requires Valid()
      modifies this
      ensures Valid()
      ensures Abs() == SurferSpec.GoToPath(env, old(Abs()), p)
    {
      ghost var s0 := Abs();
      previousPath := path;
      path := p;
      cursorIx := 0;
      rowOffset := 0;
      assert Abs() == s0.(previousPath := s0.path, path := p, cursorIx := 0, rowOffset := 0);
      Relist();
    }

    /** toggleSelection: flips the mark of the item under the cursor, in the
        array on screen, unless it is the "./" marker. */
    method ToggleSelection()
      requires Valid() && 0 <= cursorIx < items.Length
      modifies items
      ensures Valid()
      ensures Abs() == SurferSpec.ToggleSelection(old(Abs()))
    {
      if items[cursorIx].info.None? {
        return;
      }
      items[cursorIx] := items[cursorIx].(isSelected := !items[cursorIx].isSelected);
    }

    /** toggleDetails. */
    method ToggleDetails()
      requires Valid()
      modifies this
      ensures Valid()
      ensures Abs() == SurferSpec.ToggleDetails(env, old(Abs()))
    {
      showDetails := !showDetails;
      CalculateColsAndRows();
      SetOffsetToMiddleScreen();
    }

    /** cursorEnter: fails on an empty listing; otherwise acts on the item
        under the cursor and says whether the program should exit with the
        command to print. */
    method CursorEnter() returns (shouldExit: bool, hasFailed: bool, exitCmd: string)
      requires Valid() && (items.Length == 0 || 0 <= cursorIx < items.Length)
      modifies this
      ensures Valid()
      ensures hasFailed <==> old(items.Length) == 0
      ensures hasFailed ==> Abs() == old(Abs())
      ensures !shouldExit ==> exitCmd == ""
      ensures !hasFailed ==>
                var e := SurferSpec.CursorEnter(env, old(Abs()));
                Abs() == e.state && shouldExit == e.exit.Some? && (shouldExit ==> exitCmd == e.exit.value)
    {
      shouldExit, hasFailed, exitCmd := false, false, "";
      if items.Length == 0 {
        hasFailed := true;
        return;
      }
      ghost var s0 := Abs();
      var cur := items[cursorIx];
      assert cur == s0.Items()[s0.cursorIx];
      if cur.name == "./" {
        shouldExit := true;
        exitCmd := "cd \"" + PathString(path) + "\"";
        return;
      }
      if cur.name == "../" {
        GoParent();
        return;
      }
      if cur.info.None? {
        return;
      }
      var isSymlink := cur.linkTarget.Some?;
      var fileInfo := cur.info.value;
      if isSymlink {
        fileInfo := cur.linkTarget.value;
      }
      if IsDir(fileInfo) {
        EnterDirectory(cur.name);
        return;
      }
      shouldExit := true;
      exitCmd := FileCommand(fileInfo, cur.name);
    }

    /** The directory case of cursorEnter: remember the current path, move
        into the child, list it from the top. */
    method EnterDirectory(name: string)
      requires Valid()
      modifies this
      ensures Valid()
      ensures Abs() == Calc(env, SurferSpec.Ls(env, old(Abs()).(previousPath := old(path), path := Join(old(path), name),
                                                                 cursorIx := 0, rowOffset := 0)))
    {
      ghost var s0 := Abs();
      previousPath := path;
      path := Join(path, name);
      cursorIx := 0;
      rowOffset := 0;
      assert Abs() == s0.(previousPath := s0.path, path := Join(s0.path, name), cursorIx := 0, rowOffset := 0);
      Relist();
    }

    /** The file case of cursorEnter: the command that runs an executable
        from its directory, or opens any other file in the editor. */
    method FileCommand(fileInfo: FileInfo, name: string) returns (exitCmd: string)
      ensures IsFileExecutable(Some(fileInfo)) ==> exitCmd == ExecCommand(env.cfg, path, name)
      ensures !IsFileExecutable(Some(fileInfo)) ==> exitCmd == EditCommand(env.cfg, path, name)
    {
      var cd := "cd \"" + PathString(path) + "\"";
      if IsFileExecutable(Some(fileInfo)) {
        var execCmd := "\"./" + name + "\"";
        exitCmd := cd + " && " + execCmd;
        if env.cfg.addToHistory {
          exitCmd := exitCmd + " && history -s " + execCmd;
        }
      } else {
        var execCmd := env.cfg.editBefore + name + env.cfg.editAfter;
        exitCmd := cd + " && " + execCmd;
        if env.cfg.addToHistory {
          exitCmd := exitCmd + " && history -s '" + execCmd + "'";
        }
      }
    }

    /** A window-size message: the new size, and the grid laid out for it. */
    method Resize(w: nat, h: nat)
      requires Valid()
      modifies this
      ensures Valid()
      ensures Abs() == SurferSpec.Resize(env, old(Abs()), w, h)
    {
      width := w;
      height := h;
      CalculateColsAndRows();
    }

    /** The arrow keys: move the cursor and scroll one row when it left the
        window. A zero column count panics in cursorRowIx before anything changes. */
    method ArrowKey(delta: int, scroll: int) returns (o: Outcome)
      requires Valid()
      modifies this
      ensures Valid()
      ensures Reaction(Abs(), o) == Arrow(old(Abs()), delta, scroll)
    {
      if cols == 0 {
        return Crash;
      }
      CursorAdd(delta);
      var shown := IsCursorDisplayed();
      if !shown {
        AddRowOffset(scroll);
      }
      return Continue;
    }

    /** Page down and page up: the cursor moves a window's worth of rows and
        the window starts at its row. */
    method PageKey(b: Bound) returns (o: Outcome)
      requires Valid() && (b == PgDown || b == PgUp)
      modifies this
      ensures Valid()
      ensures Reaction(Abs(), o) == Move(old(Abs()), b)
    {
      ghost var s0 := Abs();
      if cols == 0 {
        return Crash;
      }
      var shown := RowsDisplayed();
      if b == PgDown {
        CursorAdd(cols * shown);
      } else {
        CursorAdd(-(cols as int) * shown);
      }
      assert Move(s0, b) == Jump(s0, cursorIx);
      rowOffset := CursorRowIx();
      return Continue;
    }

    /** End: the cursor on the last item and the window starting at its row. */
    method EndKey() returns (o: Outcome)
      requires Valid()
      modifies this
      ensures Valid()
      ensures Reaction(Abs(), o) == Move(old(Abs()), End)
    {
      if cols == 0 {
        return Crash;
      }
      cursorIx := items.Length - 1;
      rowOffset := CursorRowIx();
      return Continue;
    }

    /** The cursor and scrolling keys. */
    method MoveKey(b: Bound) returns (o: Outcome)
      requires Valid() && IsMove(b)
      modifies this
      ensures Valid()
      ensures Reaction(Abs(), o) == Move(old(Abs()), b)
    {
      if b == Left {
        o := ArrowKey(-1, -1);
      } else if b == Right {
        o := ArrowKey(1, 1);
      } else if b == Up {
        o := ArrowKey(-(cols as int), -1);
      } else if b == Down {
        o := ArrowKey(cols, 1);
      } else if b == Home {
        cursorIx := 0;
        rowOffset := 0;
        o := Continue;
      } else if b == End {
        o := EndKey();
      } else {
        o := PageKey(b);
      }
    }

    /** Enter and Tab in list or search mode: enter the item under the cursor,
        go back to list mode, and quit when cursorEnter asks to. */
    method EnterKey() returns (o: Outcome)
      requires Valid()
      modifies this
      ensures Valid()
      ensures Reaction(Abs(), o) == SurferSpec.EnterKey(env, old(Abs()))
    {
      if items.Length > 0 && !(0 <= cursorIx < items.Length) {
        return Crash;
      }
      var shouldExit, hasFailed, exitCmd := CursorEnter();
      if hasFailed {
        return Continue;
      }
      ChangeMode(List);
      if shouldExit {
        return Quit(Some(exitCmd));
      }
      return Continue;
    }

    /** Quitting, entering and the selection keys. */
    method CommandKey(b: Bound) returns (o: Outcome)
      requires Valid() && IsCommand(b, mode)
      modifies this, items
      ensures Valid()
      ensures Reaction(Abs(), o) == Command(env, old(Abs()), b)
    {
      if b == AltEnter {
        return Quit(Some("cd \"" + PathString(path) + "\""));
      } else if b == Esc || b == CtrlC {
        return Quit(None);
      } else if b == Enter || b == Tab {
        o := EnterKey();
      } else if b == Space {
        return Continue;
      } else if 0 <= cursorIx < items.Length {
        ToggleSelection();
        return Continue;
      } else {
        return Crash;
      }
    }

    /** The keys of list mode that change directory or the details view. */
    method ListCommandKey(b: Bound) returns (o: Outcome)
      requires Valid() && IsListCommand(b)
      modifies this
      ensures Valid()
      ensures Reaction(Abs(), o) == ListCommand(env, old(Abs()), b)
    {
      if b == Tilde {
        GoHome();
      } else if b == Prev {
        GoPrevious();
      } else if b == AltBackspace {
        GoParent();
      } else if b == ShowDetails {
        ToggleDetails();
      } else {
        GoToPath(Root);
      }
      return Continue;
    }

    /** "~": the home directory, remembering the current one. */
    method GoHome()
      requires Valid()
      modifies this
      ensures Valid()
      ensures Abs() == Calc(env, SurferSpec.Ls(env, old(Abs()).(previousPath := old(path), path := env.fs.home)))
    {
      ghost var s0 := Abs();
      previousPath := path;
      path := env.fs.home;
      assert Abs() == s0.(previousPath := s0.path, path := env.fs.home);
      Relist();
    }

    /** "-": swap the current and the previous directory, centred on the cursor. */
    method GoPrevious()
      requires Valid()
      modifies this
      ensures Valid()
      ensures Abs() == SetOffsetToMiddle(Calc(env, SurferSpec.Ls(env, old(Abs()).(path := old(previousPath), previousPath := old(path)))))
    {
      ghost var s0 := Abs();
      var swap := path;
      path := previousPath;
      previousPath := swap;
      assert Abs() == s0.(path := s0.previousPath, previousPath := s0.path);
      Relist();
      SetOffsetToMiddleScreen();
    }

    /** The keys of path-entry mode. */
    method EnterPathKey(k: Key) returns (o: Outcome)
      requires Valid()
      modifies this
      ensures Valid()
      ensures Reaction(Abs(), o) == SurferSpec.EnterPathKey(env, old(Abs()), k)
    {
      var b := Binding(k);
      if k.Runes? {
        inputPath := inputPath + k.runes;
        o := Continue;
      } else if b == Space {
        inputPath := inputPath + " ";
        o := Continue;
      } else if b == Backspace {
        o := PathBackspace();
      } else if b == Enter {
        PathEnter();
        o := Continue;
      } else {
        o := Continue;
      }
    }

    /** Backspace in path-entry mode. */
    method PathBackspace() returns (o: Outcome)
      requires Valid()
      modifies this
      ensures Valid()
      ensures Reaction(Abs(), o) == SurferSpec.PathBackspace(env, old(Abs()))
    {
      if inputPath == "" {
        return Crash;
      }
      inputPath := inputPath[..|inputPath| - 1];
      if inputPath == "" {
        ChangeMode(List);
      }
      return Continue;
    }

    /** The typed path, listed from the top, remembering the current one. */
    method OpenTypedPath()
      requires Valid()
      modifies this
      ensures Valid()
      ensures Abs() == SurferSpec.Ls(env, old(Abs()).(previousPath := old(path), path := Clean(old(inputPath))))
                         .(rowOffset := 0, cursorIx := 0)
    {
      ghost var s0 := Abs();
      previousPath := path;
      path := Clean(inputPath);
      assert Abs() == s0.(previousPath := s0.path, path := Clean(s0.inputPath));
      Ls();
      ghost var s1 := Abs();
      rowOffset := 0;
      cursorIx := 0;
      assert Abs() == s1.(rowOffset := 0, cursorIx := 0);
    }

    /** Enter in path-entry mode. Whether the path is a directory comes from
        the filesystem. */
    method PathEnter()
      requires Valid()
      modifies this
      ensures Valid()
      ensures Abs() == SurferSpec.PathEnter(env, old(Abs()))
    {
      if env.fs.isDirectory(Clean(inputPath)) {
        OpenTypedPath();
        ChangeMode(List);
      }
    }

    /** The query extended by the typed runes, filtered, from the top. */
    method ExtendQuery(runes: string)
      requires Valid()
      modifies this
      ensures Separate() && items == old(items)
      ensures var q := old(searchInput) + runes;
              Abs() == SurferSpec.SearchFilter(old(Abs()).(searchInput := q), q).(cursorIx := 0, rowOffset := 0)
    {
      ghost var s0 := Abs();
      searchInput := searchInput + runes;
      assert Abs() == s0.(searchInput := searchInput);
      SearchFilter(searchInput);
      cursorIx := 0;
      rowOffset := 0;
    }

    /** Typed runes outside path entry: a lower-case letter extends the query,
        filters, and enters search mode. An empty rune list panics. */
    method SearchTyping(runes: string) returns (o: Outcome)
      requires Valid()
      modifies this
      ensures Valid()
      ensures Reaction(Abs(), o) == SurferSpec.SearchTyping(env, old(Abs()), runes)
    {
      if runes == [] {
        return Crash;
      }
      if IsLowerLetter(runes[0]) {
        ExtendQuery(runes);
        ChangeMode(Search);
      }
      return Continue;
    }

    /** Backspace in search mode. An empty query panics. */
    method SearchBackspace() returns (o: Outcome)
      requires Valid()
      modifies this
      ensures Valid()
      ensures Reaction(Abs(), o) == SurferSpec.SearchBackspace(env, old(Abs()))
    {
      if searchInput == "" {
        return Crash;
      }
      ghost var s0 := Abs();
      searchInput := searchInput[..|searchInput| - 1];
      cursorIx := 0;
      rowOffset := 0;
      ghost var s1 := Abs();
      assert s1 == s0.(searchInput := searchInput, cursorIx := 0, rowOffset := 0);
      if searchInput == "" {
        ChangeMode(List);
        return Continue;
      }
      SearchFilter(searchInput);
      assert Abs() == SurferSpec.SearchFilter(s1, searchInput);
      ChangeMode(Search);
      return Continue;
    }

    /** Esc or ctrl+u in search mode: back to the listing, from the top. */
    method LeaveSearch()
      requires Valid()
      modifies this
      ensures Valid()
      ensures Abs() == SurferSpec.ChangeMode(env, old(Abs()).(cursorIx := 0, rowOffset := 0), List)
    {
      ghost var s0 := Abs();
      cursorIx := 0;
      rowOffset := 0;
      assert Abs() == s0.(cursorIx := 0, rowOffset := 0);
      ChangeMode(List);
    }

    /** The cases after the bound commands. */
    method OtherKey(k: Key, b: Bound) returns (o: Outcome)
      requires Valid()
      modifies this
      ensures Valid()
      ensures Reaction(Abs(), o) == Other(env, old(Abs()), k, b)
    {
      if mode == EnterPath {
        o := EnterPathKey(k);
      } else if k.Runes? {
        o := SearchTyping(k.runes);
      } else if b == Backspace && mode == Search {
        o := SearchBackspace();
      } else if (b == Esc || b == Clear) && mode == Search {
        LeaveSearch();
        o := Continue;
      } else {
        o := Continue;
      }
    }

    /** updateStateList: the first case of the key switch that applies. */
    method UpdateStateList(k: Key) returns (o: Outcome)
      requires Valid()
      modifies this, items
      ensures Valid()
      ensures Reaction(Abs(), o) == Step(env, old(Abs()), k)
    {
      StepCases(env, Abs(), k);
      var b := Binding(k);
      if IsMove(b) {
        o := MoveKey(b);
      } else if IsCommand(b, mode) {
        o := CommandKey(b);
      } else if mode == List && IsListCommand(b) {
        o := ListCommandKey(b);
      } else {
        o := OtherKey(k, b);
      }
    }

    /** Update: window-size messages lay the grid out again, keys go to
        updateStateList, anything else is ignored. */
    method Update(msg: Msg) returns (o: Outcome)
      requires Valid()
      modifies this, items
      ensures Valid()
      ensures Reaction(Abs(), o) == SurferSpec.Update(env, old(Abs()), msg)
    {
      match msg
      case WindowSize(w, h) =>
        Resize(w, h);
        o := Continue;
      case KeyPress(k) =>
        o := UpdateStateList(k);
      case OtherMsg =>
        o := Continue;
    }
  }
}
