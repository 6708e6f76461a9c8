/// The older browser of cmd/cds/model.go as the object it is: a Model whose
/// methods update its fields and its listing array in place. Every method is
/// proved to follow the functions of CdsSpec, so the properties proved in
/// CdsProps hold of the object.
module Cds {
  import opened Wrappers
  import opened Misc
  import opened Grid
  import opened Paths
  import opened Grouping
  import opened Entries
  import opened Tea
  import opened CdsSpec

  /** sortItemsFoldersFirst, with its append loop. */
  method SortCdsItemsFoldersFirst(items: seq<CdsItem>) returns (ret: seq<CdsItem>)
    ensures ret == Grouped(items, CdsSpec.FolderRank)
  {
    var folders: seq<CdsItem> := [];
    var files: seq<CdsItem> := [];
    var other: seq<CdsItem> := [];
    for i := 0 to |items|
      invariant other == Bucket(items[..i], CdsSpec.FolderRank, 0)
      invariant folders == Bucket(items[..i], CdsSpec.FolderRank, 1)
      invariant files == Bucket(items[..i], CdsSpec.FolderRank, 2)
    {
      var it := items[i];
      assert items[..i + 1] == items[..i] + [it];
      BucketConcat(items[..i], [it], CdsSpec.FolderRank, 0);
      BucketConcat(items[..i], [it], CdsSpec.FolderRank, 1);
      BucketConcat(items[..i], [it], CdsSpec.FolderRank, 2);
      if it.info.None? {
        other := other + [it];
        continue;
      }
      if IsDir(it.info.value) {
        folders := folders + [it];
        continue;
      }
      files := files + [it];
    }
    assert items[..|items|] == items;
    ret := other + folders;
    ret := ret + files;
  }

  class Model {
    /** The configuration and the filesystem, fixed for the whole run. */
    const env: Env

    var path: Path
    var cursorIx: int
    var rowOffset: int
    var colSize: int
    var cols: nat
    var rows: int
    var items: array<CdsItem>
    var width: nat
    var height: nat
    var state: ListState
    var showDetails: bool

    predicate Valid()
      reads this
    {
      ValidEnv(env)
    }

    /** The state as a value. */
    ghost function Abs(): State
      reads this, items
    {
      State(path, cursorIx, rowOffset, colSize, cols, rows, items[..], width, height, state, showDetails)
    }

    /** Init: the working directory listed, an 80x10 screen assumed. */
    constructor (env: Env, cwd: Path)
      requires ValidEnv(env)
      ensures Valid() && Abs() == Init(env, cwd)
    {
      this.env := env;
      path := cwd;
      cursorIx, rowOffset, colSize, cols, rows := 0, 0, 0, 0, 0;
      width, height := 80, 10;
      state, showDetails := StateList, env.cfg.showDetails;
      items := new CdsItem[0];
      new;
      Ls();
    }

    /** Ls: the "../" entry unless at the root, then the children, sorted
        folders first when configured, in a new array. */
    method Ls()
      requires Valid()
      modifies this
      ensures Valid() && fresh(items)
      ensures Abs() == CdsSpec.Ls(env, old(Abs()))
    {
      var files := env.fs.readDir(path);
      var ret := ParentEntry(env.fs, path);
      for i := 0 to |files|
        invariant ret == ParentEntry(env.fs, path) + ChildItems(files[..i])
      {
        assert ChildItems(files[..i + 1]) == ChildItems(files[..i]) + [ChildItem(files[i])];
        ret := ret + [ChildItem(files[i])];
      }
      assert files[..|files|] == files;
      if env.cfg.foldersFirst {
        ret := SortCdsItemsFoldersFirst(ret);
      }
      items := new CdsItem[|ret|](i requires 0 <= i < |ret| => ret[i]);
    }

    /** maxItemLength. */
    method MaxItemLength() returns (max: nat)
      ensures max == MaxNameLength(items[..])
    {
      max := 0;
      for i := 0 to items.Length
        invariant forall j :: 0 <= j < i ==> |items[j].name| <= max
        invariant max == 0 || exists j :: 0 <= j < i && max == |items[j].name|
      {
        if |items[i].name| > max {
          max := |items[i].name|;
        }
      }
      var m := MaxNameLength(items[..]);
      if items.Length > 0 {
        var j :| 0 <= j < items.Length && m == |items[..][j].name|;
        assert items[..][j] == items[j];
      }
    }

    /** calculateColsAndRows: one column in the details view and when the
        widest name does not fit; otherwise as many columns as fit. */
    method CalculateColsAndRows()
      requires Valid()
      modifies this
      ensures Valid() && items == old(items)
      ensures Abs() == Calc(env, old(Abs()))
    {
      if showDetails {
        cols, colSize, rows := 1, width, items.Length;
        return;
      }
      var m := MaxItemLength();
      var maxColSize := m + env.cfg.filesSeparator;
      if maxColSize >= width {
        cols, colSize, rows := 1, width, items.Length;
        return;
      }
      cols, colSize, rows := MultiColumnLayout(width, m, env.cfg.filesSeparator, items.Length);
    }

    /** cursorAdd. */
    method CursorAdd(val: int)
      modifies this
      ensures items == old(items)
      ensures Abs() == old(Abs()).(cursorIx := Grid.CursorAdd(old(cursorIx), val, items.Length))
    {
      cursorIx := MinMax(cursorIx + val, 0, items.Length - 1);
    }

    /** cursorRowIx, with Go's truncating division. */
    method CursorRowIx() returns (r: int)
      requires cols >= 1
      ensures r == CursorRow(cursorIx, cols)
    {
      if cursorIx >= 0 {
        r := cursorIx / cols;
      } else {
        r := -((-cursorIx) / cols);
      }
    }

    /** rowsDisplayed. */
    method RowsDisplayed() returns (r: int)
      ensures r == Grid.RowsDisplayed(height)
    {
      r := Max(height - 5, 1);
    }

    /** isCursorDisplayed. */
    method IsCursorDisplayed() returns (b: bool)
      requires cols >= 1
      ensures b == Grid.IsCursorDisplayed(cursorIx, cols, rowOffset, height)
    {
      var cursor := CursorRowIx();
      var shown := RowsDisplayed();
      b := cursor < rowOffset + shown && cursor >= rowOffset;
    }

    /** addRowOffset. */
    method AddRowOffset(val: int)
      modifies this
      ensures items == old(items)
      ensures Abs() == old(Abs()).(rowOffset := Grid.AddRowOffset(old(rowOffset), val, rows))
    {
      rowOffset := MinMax(rowOffset + val, 0, rows - 1);
    }

    /** cursorEnter: a file does nothing; anything else is entered. */
    method CursorEnter()
      requires Valid() && 0 <= cursorIx < items.Length
      modifies this
      ensures Valid()
      ensures Abs() == CdsSpec.CursorEnter(env, old(Abs()))
    {
      var curItem := items[cursorIx];
      if curItem.info.Some? && !IsDir(curItem.info.value) {
        return;
      }
      ghost var s0 := Abs();
      path := Join(path, items[cursorIx].name);
      cursorIx := 0;
      rowOffset := 0;
      assert Abs() == s0.(path := Join(s0.path, curItem.name), cursorIx := 0, rowOffset := 0);
      Ls();
      CalculateColsAndRows();
    }

    /** goBack. */
    method GoBack()
      requires Valid()
      modifies this
      ensures Valid()
      ensures Abs() == CdsSpec.GoBack(env, old(Abs()))
    {
      path := Join(path, "..");
      cursorIx := 0;
      rowOffset := 0;
      Ls();
      CalculateColsAndRows();
    }

    /** toggleSelection: writes the flipped mark into the listing array. */
    method ToggleSelection()
      requires 0 <= cursorIx < items.Length
      modifies items
      ensures Abs() == CdsSpec.ToggleSelection(old(Abs()))
    {
      if items[cursorIx].info.None? {
        return;
      }
      items[cursorIx] := items[cursorIx].(isSelected := !items[cursorIx].isSelected);
    }

    /** toggleDetails. */
    method ToggleDetails()
      requires Valid()
      modifies this
      ensures Valid()
      ensures Abs() == CdsSpec.ToggleDetails(env, old(Abs()))
    {
      showDetails := !showDetails;
      CalculateColsAndRows();
    }

    /** A window-size message. */
    method Resize(w: nat, h: nat)
      requires Valid()
      modifies this
      ensures Valid()
      ensures Abs() == CdsSpec.Resize(env, old(Abs()), w, h)
    {
      width := w;
      height := h;
      CalculateColsAndRows();
    }

    /** The arrow keys; with no layout yet cursorRowIx divides by zero. */
    method ArrowKey(delta: int, scroll: int) returns (o: Outcome)
      modifies this
      ensures Reaction(Abs(), o) == Arrow(old(Abs()), delta, scroll)
    {
      if cols == 0 {
        return Crash;
      }
      CursorAdd(delta);
      var shown := IsCursorDisplayed();
      if !shown {
        AddRowOffset(scroll);
      }
      return Continue;
    }

    /** Page down and page up. */
    method PageKey(b: Bound) returns (o: Outcome)
      requires b == PgDown || b == PgUp
      modifies this
      ensures Reaction(Abs(), o) == Move(old(Abs()), b)
    {
      ghost var s0 := Abs();
      if cols == 0 {
        return Crash;
      }
      var shown := RowsDisplayed();
      if b == PgDown {
        CursorAdd(cols * shown);
      } else {
        CursorAdd(-(cols as int) * shown);
      }
      assert Move(s0, b) == Jump(s0, cursorIx);
      rowOffset := CursorRowIx();
      return Continue;
    }

    /** End. */
    method EndKey() returns (o: Outcome)
      modifies this
      ensures Reaction(Abs(), o) == Move(old(Abs()), End)
    {
      if cols == 0 {
        return Crash;
      }
      cursorIx := items.Length - 1;
      rowOffset := CursorRowIx();
      return Continue;
    }

    /** The cursor and scrolling keys. */
    method MoveKey(b: Bound) returns (o: Outcome)
      requires IsMove(b)
      modifies this
      ensures Reaction(Abs(), o) == Move(old(Abs()), b)
    {
      if b == Left {
        o := ArrowKey(-1, -1);
      } else if b == Right {
        o := ArrowKey(1, 1);
      } else if b == Up {
        o := ArrowKey(-(cols as int), -1);
      } else if b == Down {
        o := ArrowKey(cols, 1);
      } else if b == Home {
        cursorIx := 0;
        rowOffset := 0;
        o := Continue;
      } else if b == End {
        o := EndKey();
      } else {
        o := PageKey(b);
      }
    }

    /** Enter and the selection keys, which index the listing at the cursor. */
    method ItemKey(b: Bound) returns (o: Outcome)
      requires Valid() && IsItemKey(b)
      modifies this, items
      ensures Valid()
      ensures Reaction(Abs(), o) == CdsSpec.ItemKey(env, old(Abs()), b)
    {
      if !(0 <= cursorIx < items.Length) {
        return Crash;
      }
      if b == Enter {
        CursorEnter();
      } else {
        ToggleSelection();
      }
      return Continue;
    }

    /** updateStateList. */
    method UpdateStateList(k: Key) returns (o: Outcome)
      requires Valid()
      modifies this, items
      ensures Valid()
      ensures Reaction(Abs(), o) == Step(env, old(Abs()), k)
    {
      var b := Binding(k);
      if b == Kill || b == QuitKey {
        o := Quit(Some("cd \"" + PathString(path) + "\""));
      } else if IsMove(b) {
        o := MoveKey(b);
      } else if IsItemKey(b) {
        o := ItemKey(b);
      } else if b == Back {
        GoBack();
        o := Continue;
      } else if b == ShowDetails {
        ToggleDetails();
        o := Continue;
      } else {
        o := Continue;
      }
    }

    /** Update: keys reach updateStateList only in the list state. */
    method Update(msg: Msg) returns (o: Outcome)
      requires Valid()
      modifies this, items
      ensures Valid()
      ensures Reaction(Abs(), o) == CdsSpec.Update(env, old(Abs()), msg)
    {
      match msg
      case WindowSize(w, h) =>
        Resize(w, h);
        o := Continue;
      case KeyPress(k) =>
        if state == StateList {
          o := UpdateStateList(k);
        } else {
          o := Continue;
        }
      case OtherMsg =>
        o := Continue;
    }
  }
}
