/// The state machine of cmd/cd-surfer/model.go as functions on a value: the
/// browser's state, the effect of each helper method (Ls,
/// calculateColsAndRows, changeMode, searchFilter, cursorEnter, goParent,
/// goToPath, toggleSelection, toggleDetails, setOffsetToMiddleScreen) and the
/// key dispatch of updateStateList, case by case in the source's order. The
/// class in module Surfer is proved to follow these functions.
module SurferSpec {
  import opened Wrappers
  import opened Misc
  import opened Grid
  import opened Paths
  import opened Entries
  import opened Search
  import opened Tea

  datatype Mode = List | Search | EnterPath

  /** Which of the two listings the displayed `items` slice is: the source
      keeps `items` as an alias of `dirItems` or of `filteredItems`. */
  datatype View = DirView | FilteredView

  datatype State = State(
    path: Path,
    previousPath: Path,
    inputPath: string,
    cursorIx: int,
    rowOffset: int,
    colSize: int,
    cols: nat,
    rows: int,
    dirItems: seq<Item>,
    filteredItems: seq<Item>,
    view: View,
    width: nat,
    height: nat,
    mode: Mode,
    showDetails: bool,
    searchInput: string)
  {
    /** The items on screen. */
    function Items(): seq<Item>
    {
      if view == DirView then dirItems else filteredItems
    }
  }

  /** The key bindings the browser declares. */
  datatype Bound =
    | AltEnter | Esc | CtrlC | Up | Down | Left | Right | Enter | Tab | Space
    | Backspace | AltBackspace | PgUp | PgDown | Home | End | Copy | Cut | Paste
    | ShowDetails | Clear | Slash | Tilde | Prev | Unbound

  /** The binding whose key string is the key's String(), if any. */
  function Binding(k: Key): Bound
  {
    match KeyString(k)
    case "alt+enter" => AltEnter
    case "esc" => Esc
    case "ctrl+c" => CtrlC
    case "up" => Up
    case "down" => Down
    case "left" => Left
    case "right" => Right
    case "enter" => Enter
    case "tab" => Tab
    case " " => Space
    case "backspace" => Backspace
    case "alt+backspace" => AltBackspace
    case "pgup" => PgUp
    case "pgdown" => PgDown
    case "home" => Home
    case "end" => End
    case "C" => Copy
    case "alt+x" => Cut
    case "alt+v" => Paste
    case "alt+d" => ShowDetails
    case "ctrl+u" => Clear
    case "/" => Slash
    case "~" => Tilde
    case "-" => Prev
    case _ => Unbound
  }

  datatype Reaction = Reaction(state: State, outcome: Outcome)

  function Cont(s: State): Reaction
  {
    Reaction(s, Continue)
  }

  /** maxItemLength: the longest name, 0 for no items. */
  function MaxNameLength(items: seq<Item>): (r: nat)
    ensures forall i :: 0 <= i < |items| ==> |items[i].name| <= r
    ensures items == [] ==> r == 0
    ensures items != [] ==> exists i :: 0 <= i < |items| && r == |items[i].name|
  {
    if items == [] then 0
    else
      var rest := MaxNameLength(items[1..]);
      assert forall i :: 1 <= i < |items| ==> items[i] == items[1..][i - 1];
      if |items[0].name| > rest then |items[0].name| else rest
  }

  /** The layout calculateColsAndRows computes for a state. */
  function LayoutOf(env: Env, s: State): Layout
    requires ValidEnv(env)
  {
    GridLayout(s.width, MaxNameLength(s.Items()), env.cfg.filesSeparator,
               s.showDetails || s.mode == Search, |s.Items()|)
  }

  /** calculateColsAndRows. */
  function Calc(env: Env, s: State): (r: State)
    requires ValidEnv(env)
    ensures r.cols >= 1
  {
    var l := LayoutOf(env, s);
    s.(cols := l.cols, colSize := l.colSize, rows := l.rows)
  }

  /** Ls: reads the listing of the current path; the displayed items become it. */
  function Ls(env: Env, s: State): State
  {
    s.(dirItems := Listing(env.cfg, env.fs, s.path), view := DirView)
  }

  /** changeMode. */
  function ChangeMode(env: Env, s: State, m: Mode): State
    requires ValidEnv(env)
  {
    match m
    case Search => Calc(env, s.(mode := Search, view := FilteredView))
    case List => Calc(env, s.(searchInput := "", mode := List, view := DirView))
    case EnterPath => s.(inputPath := "/", mode := EnterPath)
  }

  /** searchFilter: the filtered listing for the query. */
  function SearchFilter(s: State, query: string): State
  {
    s.(filteredItems := SearchResult(s.dirItems, query))
  }

  /** setOffsetToMiddleScreen. */
  function SetOffsetToMiddle(s: State): State
    requires s.cols >= 1
  {
    s.(rowOffset := MiddleOffset(s.cursorIx, s.cols, s.height, s.rows))
  }

  predicate HasInfoName(it: Item, name: string)
  {
    it.info.Some? && it.info.value.name == name
  }

  /** The first index at or after k whose item has FileInfo name `name`, or
      |items| when there is none. */
  function FindFrom(items: seq<Item>, name: string, k: nat): (r: nat)
    requires k <= |items|
    decreases |items| - k
    ensures k <= r <= |items|
    ensures r < |items| ==> HasInfoName(items[r], name)
    ensures forall j :: k <= j < r ==> !HasInfoName(items[j], name)
  {
    if k == |items| then k
    else if HasInfoName(items[k], name) then k
    else FindFrom(items, name, k + 1)
  }

  /** The index goParent puts the cursor on: the first item whose FileInfo
      name is `name`, or 0 when there is none. */
  function FindByInfoName(items: seq<Item>, name: string): (r: nat)
    ensures items == [] ==> r == 0
    ensures items != [] ==> r < |items|
    ensures (exists j :: 0 <= j < |items| && HasInfoName(items[j], name)) ==>
              r < |items| && HasInfoName(items[r], name) && forall j :: 0 <= j < r ==> !HasInfoName(items[j], name)
    ensures (forall j :: 0 <= j < |items| ==> !HasInfoName(items[j], name)) ==> r == 0
  {
    var f := FindFrom(items, name, 0);
    if f == |items| then 0 else f
  }

  /** goParent. At the root nothing changes; otherwise the listing moves up,
      the cursor lands on the first item whose FileInfo name is the name of
      the directory just left (which may be "../", carrying the grandparent's
      FileInfo), and the view is centred on it. The previous path is not
      updated. */
  function GoParent(env: Env, s: State): State
    requires ValidEnv(env)
  {
    var up := Parent(s.path);
    if up == s.path then s
    else
      var s1 := Calc(env, Ls(env, s.(path := up)));
      SetOffsetToMiddle(s1.(cursorIx := FindByInfoName(s1.Items(), Base(s.path))))
  }

  /** goToPath. */
  function GoToPath(env: Env, s: State, p: Path): State
    requires ValidEnv(env)
  {
    Calc(env, Ls(env, s.(previousPath := s.path, path := p, cursorIx := 0, rowOffset := 0)))
  }

  /** toggleSelection: flips the mark of the item under the cursor, in the
      listing the screen shows, unless it is the "./" marker. */
  function ToggleSelection(s: State): State
    requires 0 <= s.cursorIx < |s.Items()|
  {
    var c := s.cursorIx;
    var it := s.Items()[c];
    if it.info.None? then s
    else if s.view == DirView then s.(dirItems := s.dirItems[c := it.(isSelected := !it.isSelected)])
    else s.(filteredItems := s.filteredItems[c := it.(isSelected := !it.isSelected)])
  }

  /** toggleDetails. */
  function ToggleDetails(env: Env, s: State): State
    requires ValidEnv(env)
  {
    SetOffsetToMiddle(Calc(env, s.(showDetails := !s.showDetails)))
  }

  /** The command printed for an executable file: run it from its directory. */
  function ExecCommand(cfg: Config, p: Path, name: string): string
  {
    var exec := "\"./" + name + "\"";
    var cmd := CdCommand(p) + " && " + exec;
    if cfg.addToHistory then cmd + " && history -s " + exec else cmd
  }

  /** The command printed for any other file: EDIT_FILE_CMD with the name put
      in place of its %s. */
  function EditCommand(cfg: Config, p: Path, name: string): string
  {
    var edit := cfg.editBefore + name + cfg.editAfter;
    var cmd := CdCommand(p) + " && " + edit;
    if cfg.addToHistory then cmd + " && history -s '" + edit + "'" else cmd
  }

  datatype Entered = Entered(state: State, exit: Option<string>)

  /** cursorEnter on a listing with the cursor on an item. */
  function CursorEnter(env: Env, s: State): Entered
    requires ValidEnv(env)
    requires 0 <= s.cursorIx < |s.Items()|
  {
    var cur := s.Items()[s.cursorIx];
    if cur.name == "./" then Entered(s, Some(CdCommand(s.path)))
    else if cur.name == "../" then Entered(GoParent(env, s), None)
    else if cur.info.None? then Entered(s, None)
    else
      var fi := if cur.linkTarget.Some? then cur.linkTarget.value else cur.info.value;
      if IsDir(fi) then
        Entered(Calc(env, Ls(env, s.(previousPath := s.path, path := Join(s.path, cur.name),
                                       cursorIx := 0, rowOffset := 0))), None)
      else if IsFileExecutable(Some(fi)) then Entered(s, Some(ExecCommand(env.cfg, s.path, cur.name)))
      else Entered(s, Some(EditCommand(env.cfg, s.path, cur.name)))
  }

  /** The state at start-up (Init): the working directory listed, an 80x10
      screen assumed, and no layout until the first window-size message. */
  function Init(env: Env, cwd: Path): State
  {
    State(cwd, cwd, "", 0, 0, 0, 0, 0, Listing(env.cfg, env.fs, cwd), [], DirView,
          80, 10, List, env.cfg.showDetails, "")
  }

  /** A window-size message. */
  function Resize(env: Env, s: State, width: nat, height: nat): State
    requires ValidEnv(env)
  {
    Calc(env, s.(width := width, height := height))
  }

  /** The arrow keys: move the cursor, and scroll one row when it left the window. */
  function Arrow(s: State, delta: int, scroll: int): Reaction
  {
    if s.cols == 0 then Reaction(s, Crash)
    else
      var s1 := s.(cursorIx := CursorAdd(s.cursorIx, delta, |s.Items()|));
      if IsCursorDisplayed(s1.cursorIx, s1.cols, s1.rowOffset, s1.height) then Cont(s1)
      else Cont(s1.(rowOffset := AddRowOffset(s1.rowOffset, scroll, s1.rows)))
  }

  /** Page up and down, and End: the window starts at the cursor's row. */
  function Jump(s: State, cursorIx: int): Reaction
  {
    if s.cols == 0 then Reaction(s, Crash)
    else Cont(s.(cursorIx := cursorIx, rowOffset := CursorRow(cursorIx, s.cols)))
  }

  /** Enter or Tab in list or search mode. */
  function EnterKey(env: Env, s: State): Reaction
    requires ValidEnv(env)
  {
    if |s.Items()| == 0 then Cont(s)
    else if !(0 <= s.cursorIx < |s.Items()|) then Reaction(s, Crash)
    else
      var e := CursorEnter(env, s);
      var s1 := ChangeMode(env, e.state, List);
      if e.exit.Some? then Reaction(s1, Quit(e.exit)) else Cont(s1)
  }

  function ToggleKey(s: State): Reaction
  {
    if 0 <= s.cursorIx < |s.Items()| then Cont(ToggleSelection(s)) else Reaction(s, Crash)
  }

  /** Backspace in path entry: drops the last byte, back to list mode when
      the input empties; an empty input panics. */
  function PathBackspace(env: Env, s: State): Reaction
    requires ValidEnv(env)
  {
    if s.inputPath == "" then Reaction(s, Crash)
    else
      var input := s.inputPath[..|s.inputPath| - 1];
      if input == "" then Cont(ChangeMode(env, s.(inputPath := input), List))
      else Cont(s.(inputPath := input))
  }

  /** Enter in path entry: list the typed directory, if it is one. */
  function PathEnter(env: Env, s: State): State
    requires ValidEnv(env)
  {
    if env.fs.isDirectory(Clean(s.inputPath)) then
      ChangeMode(env, Ls(env, s.(previousPath := s.path, path := Clean(s.inputPath))).(rowOffset := 0, cursorIx := 0), List)
    else s
  }

  /** The keys of the path-entry mode. */
  function EnterPathKey(env: Env, s: State, k: Key): Reaction
    requires ValidEnv(env)
  {
    var b := Binding(k);
    if k.Runes? then Cont(s.(inputPath := s.inputPath + k.runes))
    else if b == Space then Cont(s.(inputPath := s.inputPath + " "))
    else if b == Backspace then PathBackspace(env, s)
    else if b == Enter then Cont(PathEnter(env, s))
    else Cont(s)
  }

  predicate IsLowerLetter(c: char)
  {
    'a' <= c <= 'z'
  }

  /** Typed runes outside path entry: a lower-case letter extends the search. */
  function SearchTyping(env: Env, s: State, runes: string): Reaction
    requires ValidEnv(env)
  {
    if runes == [] then Reaction(s, Crash)
    else if IsLowerLetter(runes[0]) then
      var q := s.searchInput + runes;
      Cont(ChangeMode(env, SearchFilter(s.(searchInput := q), q).(cursorIx := 0, rowOffset := 0), Search))
    else Cont(s)
  }

  /** Backspace in search mode: shortens the query, leaving search when it empties. */
  function SearchBackspace(env: Env, s: State): Reaction
    requires ValidEnv(env)
  {
    if s.searchInput == "" then Reaction(s, Crash)
    else
      var q := s.searchInput[..|s.searchInput| - 1];
      var s1 := s.(searchInput := q, cursorIx := 0, rowOffset := 0);
      if q == "" then Cont(ChangeMode(env, s1, List))
      else Cont(ChangeMode(env, SearchFilter(s1, q), Search))
  }

  /** The cursor and scrolling keys, handled alike in every mode. */
  predicate IsMove(b: Bound)
  {
    b == Left || b == Right || b == Up || b == Down || b == PgDown || b == PgUp || b == Home || b == End
  }

  /** The cursor and scrolling cases of updateStateList. */
  function Move(s: State, b: Bound): Reaction
    requires IsMove(b)
  {
    if b == Left then Arrow(s, -1, -1)
    else if b == Right then Arrow(s, 1, 1)
    else if b == Up then Arrow(s, -(s.cols as int), -1)
    else if b == Down then Arrow(s, s.cols, 1)
    else if b == PgDown then Jump(s, CursorAdd(s.cursorIx, s.cols * RowsDisplayed(s.height), |s.Items()|))
    else if b == PgUp then Jump(s, CursorAdd(s.cursorIx, -(s.cols as int) * RowsDisplayed(s.height), |s.Items()|))
    else if b == Home then Cont(s.(cursorIx := 0, rowOffset := 0))
    else Jump(s, |s.Items()| - 1)
  }

  /** The cases of updateStateList, other than the moves, that a binding
      takes in any mode but path entry: quitting, entering and selecting. */
  predicate IsCommand(b: Bound, m: Mode)
  {
    || b == AltEnter || (b == Esc && m == List) || b == CtrlC
    || ((b == Enter || b == Tab || b == Space) && (m == List || m == Search))
    || b == Copy || b == Cut || (b == Paste && m == List)
  }

  function Command(env: Env, s: State, b: Bound): Reaction
    requires ValidEnv(env) && IsCommand(b, s.mode)
  {
    if b == AltEnter then Reaction(s, Quit(Some(CdCommand(s.path))))
    else if b == Esc || b == CtrlC then Reaction(s, Quit(None))
    else if b == Enter || b == Tab then EnterKey(env, s)
    else if b == Space then Cont(s)
    else ToggleKey(s)
  }

  /** The cases of updateStateList taken in list mode only: moving to another
      directory and switching the details view. */
  predicate IsListCommand(b: Bound)
  {
    b == Tilde || b == Prev || b == AltBackspace || b == ShowDetails || b == Slash
  }

  function ListCommand(env: Env, s: State, b: Bound): Reaction
    requires ValidEnv(env) && IsListCommand(b)
  {
    if b == Tilde then Cont(Calc(env, Ls(env, s.(previousPath := s.path, path := env.fs.home))))
    else if b == Prev then
      Cont(SetOffsetToMiddle(Calc(env, Ls(env, s.(path := s.previousPath, previousPath := s.path)))))
    else if b == AltBackspace then Cont(GoParent(env, s))
    else if b == ShowDetails then Cont(ToggleDetails(env, s))
    else Cont(GoToPath(env, s, Root))
  }

  /** The cases after the bound commands: path entry, typed runes, and the
      search-mode editing keys; anything else leaves the state as it is. */
  function Other(env: Env, s: State, k: Key, b: Bound): Reaction
    requires ValidEnv(env)
  {
    if s.mode == EnterPath then EnterPathKey(env, s, k)
    else if k.Runes? then SearchTyping(env, s, k.runes)
    else if b == Backspace && s.mode == Search then SearchBackspace(env, s)
    else if (b == Esc || b == Clear) && s.mode == Search then
      Cont(ChangeMode(env, s.(cursorIx := 0, rowOffset := 0), List))
    else Cont(s)
  }

  /** updateStateList: the first matching case, in the source's order. Its
      cases test distinct bindings up to the path-entry and typing fallbacks,
      so they are grouped here into moves, commands, list-mode commands and
      the rest. */
  function Step(env: Env, s: State, k: Key): Reaction
    requires ValidEnv(env)
  {
    var b := Binding(k);
    if IsMove(b) then Move(s, b)
    else if IsCommand(b, s.mode) then Command(env, s, b)
    else if s.mode == List && IsListCommand(b) then ListCommand(env, s, b)
    else Other(env, s, k, b)
  }

  /** Update. */
  function Update(env: Env, s: State, msg: Msg): Reaction
    requires ValidEnv(env)
  {
    match msg
    case WindowSize(w, h) => Cont(Resize(env, s, w, h))
    case KeyPress(k) => Step(env, s, k)
    case OtherMsg => Cont(s)
  }
}
