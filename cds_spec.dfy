/// The older browser of cmd/cds/model.go as functions on a value: one listing
/// (no search, no history), the "../" entry first, Enter to go into a
/// directory, backspace to go up, and Esc or ctrl+c to quit with a `cd`
/// command. The class in module Cds is proved to follow these functions.
module CdsSpec {
  import opened Wrappers
  import opened Grid
  import opened Paths
  import opened Grouping
  import opened Entries
  import opened Tea

  /** stateEnum: nothing in this program leaves the list state. */
  datatype ListState = StateList | StateSearch

  /** An entry of the listing: the "../" entry carries the parent's FileInfo. */
  datatype CdsItem = CdsItem(name: string, info: Option<FileInfo>, isSelected: bool)

  datatype State = State(
    path: Path,
    cursorIx: int,
    rowOffset: int,
    colSize: int,
    cols: nat,
    rows: int,
    items: seq<CdsItem>,
    width: nat,
    height: nat,
    state: ListState,
    showDetails: bool)

  /** The "../" entry Ls puts first, except at the root. */
  function ParentEntry(fs: Fs, p: Path): seq<CdsItem>
  {
    if p == Root then [] else [CdsItem("../", Some(fs.parentStat(p).info), false)]
  }

  /** The entry of one child: directories get a trailing "/". */
  function ChildItem(e: DirEntry): CdsItem
  {
    CdsItem(if IsDir(e.info) then e.info.name + "/" else e.info.name, Some(e.info), false)
  }

  function ChildItems(es: seq<DirEntry>): (r: seq<CdsItem>)
    ensures |r| == |es|
  {
    seq(|es|, i requires 0 <= i < |es| => ChildItem(es[i]))
  }

  /** sortItemsFoldersFirst's buckets: items without FileInfo, directories, the rest. */
  function FolderRank(it: CdsItem): (r: nat)
    ensures r <= 2
  {
    if it.info.None? then 0 else if IsDir(it.info.value) then 1 else 2
  }

  /** Ls: the listing of path p. */
  function Listing(cfg: Config, fs: Fs, p: Path): seq<CdsItem>
  {
    var all := ParentEntry(fs, p) + ChildItems(fs.readDir(p));
    if cfg.foldersFirst then Grouped(all, FolderRank) else all
  }

  /** maxItemLength: the longest name, 0 for no items. */
  function MaxNameLength(items: seq<CdsItem>): (r: nat)
    ensures forall i :: 0 <= i < |items| ==> |items[i].name| <= r
    ensures items == [] ==> r == 0
    ensures items != [] ==> exists i :: 0 <= i < |items| && r == |items[i].name|
  {
    if items == [] then 0
    else
      var rest := MaxNameLength(items[1..]);
      assert forall i :: 1 <= i < |items| ==> items[i] == items[1..][i - 1];
      if |items[0].name| > rest then |items[0].name| else rest
  }

  /** calculateColsAndRows: one column in the details view. */
  function LayoutOf(env: Env, s: State): Layout
    requires ValidEnv(env)
  {
    GridLayout(s.width, MaxNameLength(s.items), env.cfg.filesSeparator, s.showDetails, |s.items|)
  }

  function Calc(env: Env, s: State): (r: State)
    requires ValidEnv(env)
    ensures r.cols >= 1
  {
    var l := LayoutOf(env, s);
    s.(cols := l.cols, colSize := l.colSize, rows := l.rows)
  }

  function Ls(env: Env, s: State): State
  {
    s.(items := Listing(env.cfg, env.fs, s.path))
  }

  /** Init: the working directory listed, an 80x10 screen assumed, no layout yet. */
  function Init(env: Env, cwd: Path): State
  {
    State(cwd, 0, 0, 0, 0, 0, Listing(env.cfg, env.fs, cwd), 80, 10, StateList, env.cfg.showDetails)
  }

  /** cursorEnter: a file (an item with FileInfo that is not a directory)
      does nothing; anything else is entered and listed from the top. */
  function CursorEnter(env: Env, s: State): State
    requires ValidEnv(env) && 0 <= s.cursorIx < |s.items|
  {
    var cur := s.items[s.cursorIx];
    if cur.info.Some? && !IsDir(cur.info.value) then s
    else Calc(env, Ls(env, s.(path := Join(s.path, cur.name), cursorIx := 0, rowOffset := 0)))
  }

  /** goBack: the parent directory, listed from the top. */
  function GoBack(env: Env, s: State): State
    requires ValidEnv(env)
  {
    Calc(env, Ls(env, s.(path := Join(s.path, ".."), cursorIx := 0, rowOffset := 0)))
  }

  /** toggleSelection: flips the mark of the item under the cursor unless it has no FileInfo. */
  function ToggleSelection(s: State): State
    requires 0 <= s.cursorIx < |s.items|
  {
    var it := s.items[s.cursorIx];
    if it.info.None? then s
    else s.(items := s.items[s.cursorIx := it.(isSelected := !it.isSelected)])
  }

  /** toggleDetails: the cursor and the offset are left where they were. */
  function ToggleDetails(env: Env, s: State): State
    requires ValidEnv(env)
  {
    Calc(env, s.(showDetails := !s.showDetails))
  }

  function Resize(env: Env, s: State, width: nat, height: nat): State
    requires ValidEnv(env)
  {
    Calc(env, s.(width := width, height := height))
  }

  /** The key bindings of this program. */
  datatype Bound =
    | Kill | QuitKey | Up | Down | Left | Right | Enter | Space | Back
    | PgUp | PgDown | Home | End | Copy | Cut | Paste | ShowDetails | Unbound

  function Binding(k: Key): Bound
  {
    match KeyString(k)
    case "ctrl+c" => Kill
    case "esc" => QuitKey
    case "up" => Up
    case "down" => Down
    case "left" => Left
    case "right" => Right
    case "enter" => Enter
    case " " => Space
    case "backspace" => Back
    case "pgup" => PgUp
    case "pgdown" => PgDown
    case "home" => Home
    case "end" => End
    case "C" => Copy
    case "alt+x" => Cut
    case "alt+v" => Paste
    case "alt+d" => ShowDetails
    case _ => Unbound
  }

  datatype Reaction = Reaction(state: State, outcome: Outcome)

  function Cont(s: State): Reaction
  {
    Reaction(s, Continue)
  }

  /** The arrow keys: move the cursor, scroll one row when it left the window.
      With no layout yet (cols 0) cursorRowIx divides by zero. */
  function Arrow(s: State, delta: int, scroll: int): Reaction
  {
    if s.cols == 0 then Reaction(s, Crash)
    else
      var s1 := s.(cursorIx := CursorAdd(s.cursorIx, delta, |s.items|));
      if IsCursorDisplayed(s1.cursorIx, s1.cols, s1.rowOffset, s1.height) then Cont(s1)
      else Cont(s1.(rowOffset := AddRowOffset(s1.rowOffset, scroll, s1.rows)))
  }

  /** Page up and down, and End: the window starts at the cursor's row. */
  function Jump(s: State, cursorIx: int): Reaction
  {
    if s.cols == 0 then Reaction(s, Crash)
    else Cont(s.(cursorIx := cursorIx, rowOffset := CursorRow(cursorIx, s.cols)))
  }

  predicate IsMove(b: Bound)
  {
    b == Left || b == Right || b == Up || b == Down || b == PgDown || b == PgUp || b == Home || b == End
  }

  function Move(s: State, b: Bound): Reaction
    requires IsMove(b)
  {
    if b == Left then Arrow(s, -1, -1)
    else if b == Right then Arrow(s, 1, 1)
    else if b == Up then Arrow(s, -(s.cols as int), -1)
    else if b == Down then Arrow(s, s.cols, 1)
    else if b == PgDown then Jump(s, CursorAdd(s.cursorIx, s.cols * RowsDisplayed(s.height), |s.items|))
    else if b == PgUp then Jump(s, CursorAdd(s.cursorIx, -(s.cols as int) * RowsDisplayed(s.height), |s.items|))
    else if b == Home then Cont(s.(cursorIx := 0, rowOffset := 0))
    else Jump(s, |s.items| - 1)
  }

  /** The keys that act on the item under the cursor; out of range they panic. */
  predicate IsItemKey(b: Bound)
  {
    b == Enter || b == Space || b == Copy || b == Cut || b == Paste
  }

  function ItemKey(env: Env, s: State, b: Bound): Reaction
    requires ValidEnv(env) && IsItemKey(b)
  {
    if !(0 <= s.cursorIx < |s.items|) then Reaction(s, Crash)
    else if b == Enter then Cont(CursorEnter(env, s))
    else Cont(ToggleSelection(s))
  }

  /** updateStateList: ctrl+c and Esc quit printing `cd "<path>"`; the rest
      move, enter, go up or toggle. */
  function Step(env: Env, s: State, k: Key): Reaction
    requires ValidEnv(env)
  {
    React(env, s, Binding(k))
  }

  /** The reaction to a bound key; the first matching case of the switch wins. */
  function React(env: Env, s: State, b: Bound): Reaction
    requires ValidEnv(env)
  {
    if b == Kill || b == QuitKey then Reaction(s, Quit(Some(CdCommand(s.path))))
    else if IsMove(b) then Move(s, b)
    else if IsItemKey(b) then ItemKey(env, s, b)
    else if b == Back then Cont(GoBack(env, s))
    else if b == ShowDetails then Cont(ToggleDetails(env, s))
    else Cont(s)
  }

  /** Update: keys reach updateStateList only in the list state. */
  function Update(env: Env, s: State, msg: Msg): Reaction
    requires ValidEnv(env)
  {
    match msg
    case WindowSize(w, h) => Cont(Resize(env, s, w, h))
    case KeyPress(k) => if s.state == StateList then Step(env, s, k) else Cont(s)
    case OtherMsg => Cont(s)
  }
}
