# cdsurfer navigation core in Dafny

cdsurfer is a terminal directory browser built on Bubble Tea. It lists the
current directory in a grid of columns. You move a cursor over the grid with
the arrow, page, Home and End keys. Enter goes into a directory, or quits
with a shell command that runs or edits a file. alt+backspace goes up a
directory. Typing letters filters the listing. The browsers hand the calling
shell a command on some of their ways out:
- `cmd/cd-surfer` prints `cd "<path>"` on alt+enter and on Enter over `./`,
  and `cd "<path>" && <command>` on Enter over a file. Esc in list mode and
  ctrl+c quit without printing anything.
- `cmd/cds` prints `cd "<path>"` when Esc or ctrl+c quits it.

The repository holds two browsers:

- the current one, `cmd/cd-surfer`, which adds search, a previous-path
  history, an enter-path mode and a details view;
- an older one, `cmd/cds`, which has a single listing only.

This project models the presentation state of both browsers, and how each
key changes that state.

- **Functions on a state value.** Modules `SurferSpec` and `CdsSpec` state
  what each operation of a browser does. Each key handler's switch becomes
  `Step`/`Update`. A runtime panic of the Go code (an index out of range,
  a division by zero) becomes the outcome `Crash`, with the state
  unchanged.
- **Imperative classes.** Modules `Surfer` and `Cds` hold the `Model`
  classes. Their fields are updated in place, as in the Go structs. The
  listings are `array`s, and in `Surfer` the displayed `items` aliases
  either the directory listing or the search result, like the Go slice
  does. Each method is proved to change `Abs()` exactly as the matching
  function of the spec module says.
- **Properties.** Modules `SurferProps` and `CdsProps` prove properties of
  the spec functions, and so of the classes:
  - the layout invariant (columns, column width and rows agree with the
    listing) holds after every key;
  - the arrow keys keep a visible cursor visible, and scroll by one row only
    when it would leave the window;
  - page up and page down clamp the cursor into the listing;
  - `~` lists the home directory and `/` the root, remembering the path left;
  - End and Home reach the last and the first item;
  - Enter on a directory lists that directory, and alt+backspace comes back
    to the path left, with the cursor on the first item whose FileInfo name
    is the name of the directory just left;
  - `-` swaps the current and the previous path, so pressing it twice
    restores them;
  - typing searches, and Esc leaves the search;
  - the folders-first ordering is a stable permutation;
  - the search result holds exactly the matching names, with the names
    that start with the query ranked first;
  - the details columns line up.
- **Supporting modules:**
  - `Misc`: min, max and minMax;
  - `Render`: term.Width;
  - `Grid`: the grid arithmetic, with Go's truncating division;
  - `Paths`: the lexical filepath.Join and filepath.Clean;
  - `Grouping`: the three-bucket partition behind sortItemsFoldersFirst;
  - `Entries`: FileInfo with Go's FileMode bits, and the listing Ls builds;
  - `Search`: the searchFilter matching and ranking;
  - `DetailsColumns`: getDetailsSizes and the padded details prefix.

The filesystem is a parameter (`Entries.Fs`). It supplies:
- what a directory holds;
- the stat of the parent directory;
- which paths are directories;
- the home directory.

Behaviour worth knowing, as the code does it:
- The search filters every entry of the directory listing, `./` and `../`
  included.
- The previous path is updated by Enter on a directory, by `~`, by `-`
  and by the enter-path mode. It is not updated by alt+backspace
  (goParent).
- `-` and `~` reset neither the cursor nor the offset, except through
  setOffsetToMiddleScreen after `-`. A cursor beyond the new listing makes
  the next item key panic; the model yields `Crash` there.
- Esc in enter-path mode does nothing.
- goParent puts the cursor on the first item whose FileInfo name is the
  name of the directory left. That is the directory's own entry unless `../`
  comes first with the same name: `../` carries the FileInfo of the
  grandparent, so going up from `/a/b/a` to `/a/b` lands on `../`
  (`SurferProps.GoParentCanLandOnParentEntry`).
- Before the first window-size message, `cols` is 0. An arrow, page or
  End key then divides by zero, which is modelled as `Crash`.

## Model

| member | source | states |
|---|---|---|
| Misc.Min | cmd/cds/misc.go:3-8 | the result is at most both arguments and is one of them |
| Misc.Max | cmd/cds/misc.go:10-15 | the result is at least both arguments and is one of them |
| Misc.MinMax | cmd/cds/misc.go:17-19 | the result lies in [xMin, xMax] when that range is non-empty; it is x inside the range and the nearer bound outside it; xMax wins when xMax < xMin |
| Misc.MinMaxIdempotent | cmd/cds/misc.go:17-19 | clamping an already clamped value changes nothing |
| Misc.MinMaxExamples | cmd/cd-surfer/misc_test.go:7-17 | the three cases of TestMinMax: minMax(10,1,20)=10, minMax(0,1,20)=1, minMax(21,0,20)=20 |
| Render.Width | term/render.go:5-11 | the result has exactly `size` bytes; a longer text is cut to its first `size` bytes; a shorter one is kept and padded with spaces |
| Render.WidthIdempotent | term/render.go:5-11 | padding or cutting twice to the same width is the same as once |
| Render.WidthKeepsShortValue | term/render.go:5-11 | a text that fits is kept whole and followed by the missing spaces |
| Grid.GoDiv | cmd/cd-surfer/model.go:754-756 | Go's integer division truncates toward zero: the quotient has the sign of the dividend |
| Grid.GoDivBounds | cmd/cd-surfer/model.go:754-756 | the truncated quotient times the divisor lies within one divisor of the dividend, on the side of zero |
| Grid.RowsForBounds | cmd/cd-surfer/model.go:724-728 | rows = ceil(count / cols): the rows hold every item and the last row is not empty |
| Grid.GridLayout | cmd/cd-surfer/model.go:707-729 | at least one column; the details or search view, or a name wider than the screen, gives one column as wide as the screen with one row per item |
| Grid.MultiColumnLayout | cmd/cd-surfer/model.go:722-728 | the division-and-remainder code of the multi-column branch computes exactly the layout GridLayout defines |
| Grid.GridLayoutBounds | cmd/cd-surfer/model.go:707-729 | the grid holds every item with no empty last row; with several columns, as many columns of the widest name plus separator as fit, and each column at least that wide |
| Grid.ColSizeFits | cmd/cd-surfer/model.go:722-723 | when one name plus separator fits, there is at least one column and sharing the width keeps each column at least that wide |
| Grid.RowsDisplayed | cmd/cd-surfer/model.go:758-760 | the window shows height - 5 rows, and never fewer than one |
| Grid.CursorRowBounds | cmd/cd-surfer/model.go:754-756 | the cursor's row holds the cursor; the empty listing's cursor -1 is on row 0, or on row -1 with one column |
| Grid.CursorAdd | cmd/cd-surfer/model.go:741-743 | the moved cursor is clamped into the listing (to -1 when it is empty) and equals cursor + delta whenever that is inside |
| Grid.AddRowOffset | cmd/cd-surfer/model.go:762-764 | the offset is clamped to [0, rows - 1] and moves by exactly delta when that stays inside |
| Grid.MiddleOffset | cmd/cd-surfer/model.go:865-868 | the offset puts the cursor's row half a window down, clamped to the grid's rows |
| Grid.MiddleOffsetShowsCursor | cmd/cd-surfer/model.go:864-868 | a cursor on the grid is displayed once the view is centred on it: half a window below the top, or with the window at row 0 when the cursor is nearer the top than that |
| Grid.CursorRowInGrid | cmd/cd-surfer/model.go:707-729 | every item of the listing lies on one of the layout's rows, and the last item lies on the last row |
| Grid.RowsOfGrid | cmd/cd-surfer/model.go:754-756 | with rows = ceil(count / cols), every item's row is below rows and the last item's row is rows - 1 |
| Grid.ArrowKeepsCursorVisible | cmd/cd-surfer/model.go:141-167 | an arrow key moving a visible cursor by one item or one row, scrolling one row when it leaves the window, leaves it in the listing and visible; from a non-negative offset the offset moves by exactly that one row or not at all |
| Grid.LayoutExamples | cmd/cds/model_test.go:10-71 | the unit test's layouts at width 20 with separator 2: three short names give 3 columns of 6 in one row; five 7-byte names give 2 columns of 10 in 3 rows |
| Paths.Parent | cmd/cd-surfer/model.go:826-831 | the parent of the root is the root; otherwise one segment is dropped |
| Paths.Split | cmd/cd-surfer/model.go:276 | a path string splits into at least one segment, none holding '/' |
| Paths.JoinPlainName | cmd/cd-surfer/model.go:794-796 | joining a plain name (with or without a trailing '/') appends exactly that segment |
| Paths.JoinDots | cmd/cd-surfer/model.go:826-828 | joining ".." or "../" gives the parent; joining "./" changes nothing |
| Paths.ParentOfJoin | cmd/cd-surfer/model.go:826-832 | going up from a directory just entered returns to the directory it was entered from, and its base name is the directory's name |
| Paths.ParentFixedOnlyAtRoot | cmd/cd-surfer/model.go:829-831 | goParent's `newPath == path` test holds exactly at the root |
| Paths.ResolveAppend | cmd/cd-surfer/model.go:276 | resolving a sequence of segments resolves its parts one after the other |
| Paths.CleanPathString | cmd/cd-surfer/model.go:276 | cleaning the printed form of a clean path gives the path back |
| Grouping.Bucket | cmd/cd-surfer/model.go:488-508 | a bucket is a subsequence of the input whose elements all have the bucket's rank |
| Grouping.BucketConcat | cmd/cd-surfer/model.go:488-508 | the bucket of a concatenation is the concatenation of the buckets |
| Grouping.BucketsPartition | cmd/cd-surfer/model.go:488-508 | the three buckets together hold exactly the input's elements |
| Grouping.GroupedIsPermutation | cmd/cd-surfer/model.go:488-508 | the grouping is a permutation of the input |
| Grouping.GroupedIsOrdered | cmd/cd-surfer/model.go:488-508 | ranks never decrease along the grouping |
| Grouping.GroupedIsStable | cmd/cd-surfer/model.go:488-508 | inside each rank the input's relative order is kept |
| Entries.ExecutableIffSomeExecuteBit | cmd/cd-surfer/model.go:510-515 | a file counts as executable exactly when one of its owner, group or other execute bits is set |
| Entries.EntryItems | cmd/cd-surfer/model.go:436-480 | Ls builds one item per directory entry |
| Entries.FolderRank | cmd/cd-surfer/model.go:488-508 | each item falls into one of three buckets: no FileInfo, directory, other |
| Entries.SortItemsFoldersFirst | cmd/cd-surfer/model.go:488-508 | the append loop returns the entries without FileInfo, then the directories, then the rest |
| Entries.FoldersFirstIsPermutation | cmd/cd-surfer/model.go:488-508 | sorting folders first neither loses nor adds entries |
| Entries.FoldersFirstIsOrdered | cmd/cd-surfer/model.go:488-508 | no directory comes after a file, and no synthetic entry after either |
| Entries.FoldersFirstIsStable | cmd/cd-surfer/model.go:488-508 | inside each bucket the listing order is kept |
| Entries.EntryItemsNoParent | cmd/cd-surfer/model.go:436-480 | no item built from a real directory entry is named "../" |
| Entries.ListingSameItems | cmd/cd-surfer/model.go:398-486 | the listing holds exactly the synthetic "./" and "../" entries and the directory's entries, whether or not folders are sorted first |
| Entries.EntryItemsRankNonZero | cmd/cd-surfer/model.go:438-479 | every child carries FileInfo, so none sorts into the bucket of entries without it |
| Entries.RelDirsBuckets | cmd/cd-surfer/model.go:488-508 | "./" falls into the first folders-first bucket and a directory "../" into the second |
| Entries.FoldersFirstKeepsRelDirs | cmd/cd-surfer/model.go:488-508 | sorting folders first keeps a leading "./" and a directory "../" at the front of the listing when no child lacks FileInfo |
| Entries.ListingStartsWithRelDirs | cmd/cd-surfer/model.go:398-431 | below the root with "../" configured and the parent a directory, the listing starts with "./" (when configured) and then "../", sorted or not |
| Entries.ListingHasParentEntry | cmd/cd-surfer/model.go:404-431 | the listing has a "../" entry exactly when that entry is configured and the path is not the root |
| Search.LowerChar | cmd/cd-surfer/model.go:674-675 | ASCII upper-case letters are lowered, everything else is kept |
| Search.ToLower | cmd/cd-surfer/model.go:674-675 | lowering keeps the length and lowers each character |
| Search.IndexFrom | cmd/cd-surfer/model.go:676 | the result is the first occurrence at or after k, or -1 when there is none |
| Search.IndexOf | cmd/cd-surfer/model.go:676 | strings.Index: -1 exactly when the text does not occur, else the first place where it occurs |
| Search.Matching | cmd/cd-surfer/model.go:672-683 | the filter keeps at most as many items as the directory has |
| Search.MatchingExact | cmd/cd-surfer/model.go:672-683 | every kept item is a matching directory item, marked at its match, and every matching item is kept |
| Search.MatchingConcat | cmd/cd-surfer/model.go:672-683 | filtering a concatenation filters each part |
| Search.SearchResultMatches | cmd/cd-surfer/model.go:671-697 | the search result holds exactly the marked copies of the names that contain the query, ignoring ASCII case |
| Search.SearchResultIsPermutation | cmd/cd-surfer/model.go:685-694 | ranking reorders the filtered items without losing any |
| Search.SearchResultPrefixFirst | cmd/cd-surfer/model.go:685-694 | every name that starts with the query comes before every name that does not |
| Search.MarkedEmphasis | cmd/cd-surfer/model.go:677-679 | the emphasis marks span the query's length at its first case-folded occurrence in the name |
| Search.MarkEmptyQuery | cmd/cd-surfer/model.go:677-679 | the empty query marks an empty span at 0 |
| Search.EmptyQueryKeepsAll | cmd/cd-surfer/model.go:672-683 | the empty query keeps every item, in order |
| DetailsColumns.ColumnWidth | cmd/cd-surfer/model.go:608-617 | a column's width is the longest value in it, 0 for an empty listing |
| DetailsColumns.GetDetailsSizes | cmd/cd-surfer/model.go:608-617 | the single loop computes each of the five column widths |
| DetailsColumns.DetailsAligned | cmd/cd-surfer/model.go:633-653 | every row's details prefix has the same length, so the names line up |
| DetailsColumns.CellKeepsValue | cmd/cd-surfer/model.go:647-651 | no details value is cut: its cell is the value followed by padding |
| DetailsColumns.WidestValueFillsCell | cmd/cd-surfer/model.go:608-617 | the widest value of a column fills its cell exactly |
| SurferSpec.MaxNameLength | cmd/cd-surfer/model.go:731-739 | the result is the length of the longest name, 0 for no items |
| SurferSpec.Calc | cmd/cd-surfer/model.go:707-729 | after calculateColsAndRows there is at least one column |
| SurferSpec.FindFrom | cmd/cd-surfer/model.go:837-844 | the first index at or after k whose FileInfo has the name, or the end |
| SurferSpec.FindByInfoName | cmd/cd-surfer/model.go:836-844 | the cursor goes to the first item whose FileInfo has the given name, or to 0 when none has |
| SurferSpec.ChangeMode | cmd/cd-surfer/model.go:655-669 | defines changeMode: search shows the search result and lays it out; list clears the query, shows the directory listing and lays it out; path entry starts the input at "/" |
| SurferSpec.SearchFilter | cmd/cd-surfer/model.go:671-697 | defines searchFilter: the search result of the directory listing becomes filteredItems, nothing else changes |
| SurferSpec.GoParent | cmd/cd-surfer/model.go:825-846 | defines goParent: nothing at the root; otherwise the parent is listed and laid out, the cursor goes to the first item with the left directory's FileInfo name, and the view is centred |
| SurferSpec.ToggleSelection | cmd/cd-surfer/model.go:857-863 | defines toggleSelection: the mark of the item under the cursor flips in the displayed listing, unless it has no FileInfo |
| SurferSpec.CursorEnter | cmd/cd-surfer/model.go:766-823 | defines cursorEnter on a cursor inside the listing: "./" exits with cd, "../" goes up, an item without FileInfo does nothing, a directory (or a link to one) is entered from the top, and any other file exits with its run or edit command |
| SurferSpec.SearchTyping | cmd/cd-surfer/model.go:284-292 | defines the typed-runes case: empty runes panic; a first rune from a to z extends the query, searches, resets the cursor and offset and enters search mode; anything else is ignored |
| SurferSpec.Step | cmd/cd-surfer/model.go:128-313 | defines updateStateList: the first matching case among the moves, the commands, the list-mode commands and the remaining path-entry and search cases |
| SurferProps.InitSatisfiesInv | cmd/cd-surfer/model.go:66-85 | Init lists the working directory and satisfies the layout invariant |
| SurferProps.ResizeKeepsInv | cmd/cd-surfer/model.go:116-120 | a window-size message stores the size and recomputes a matching layout |
| SurferProps.MaxNameLengthOfNames | cmd/cd-surfer/model.go:731-739 | the longest name depends on the names only, not on marks or selection |
| SurferProps.ToggleKeepsLayout | cmd/cd-surfer/model.go:857-862 | selecting an item leaves the layout as it was |
| SurferProps.CalcMatches | cmd/cd-surfer/model.go:707-729 | calculateColsAndRows establishes the layout invariant |
| SurferProps.ListModeInv | cmd/cd-surfer/model.go:655-669 | changing to list mode shows the directory listing with a matching layout |
| SurferProps.SearchModeInv | cmd/cd-surfer/model.go:655-669 | changing to search mode with a query shows the search result with a matching layout |
| SurferProps.RelistInv | cmd/cd-surfer/model.go:398-486 | listing again and recomputing the layout, then centring the view, keeps the invariant |
| SurferProps.GoParentKeepsInv | cmd/cd-surfer/model.go:825-846 | going up keeps the invariant |
| SurferProps.EnterKeyKeepsInv | cmd/cd-surfer/model.go:189-199 | Enter keeps the invariant |
| SurferProps.ToggleKeepsInv | cmd/cd-surfer/model.go:227-242 | the copy, cut and paste keys, which toggle the selection, keep the invariant |
| SurferProps.SearchTypingKeepsInv | cmd/cd-surfer/model.go:283-291 | typing into the search keeps the invariant |
| SurferProps.SearchBackspaceKeepsInv | cmd/cd-surfer/model.go:293-303 | backspace in the search keeps the invariant |
| SurferProps.StepCases | cmd/cd-surfer/model.go:128-313 | every key falls into exactly one of four groups of the switch: movement, mode command, list-only command, other |
| SurferProps.StepListCommand | cmd/cd-surfer/model.go:207-256 | in list mode the list-only commands (`~`, `-`, alt+backspace, alt+d, `/`) are handled by their own case |
| SurferProps.StepOther | cmd/cd-surfer/model.go:244-309 | the remaining keys reach the last group of cases |
| SurferProps.MoveKeepsInv | cmd/cd-surfer/model.go:141-187 | the movement keys keep the invariant |
| SurferProps.CommandKeepsInv | cmd/cd-surfer/model.go:189-242 | the item and mode commands keep the invariant |
| SurferProps.ListCommandKeepsInv | cmd/cd-surfer/model.go:207-256 | `~`, `-`, alt+backspace, alt+d and `/` keep the invariant |
| SurferProps.OtherKeepsInv | cmd/cd-surfer/model.go:258-310 | the enter-path keys, typed runes, and backspace, esc and ctrl+u in search mode keep the invariant |
| SurferProps.StepKeepsInv | cmd/cd-surfer/model.go:128-313 | every key keeps the layout invariant |
| SurferProps.NamedKeyBindings | cmd/cd-surfer/model.go:88-113 | the named keys end, home, enter, backspace, alt+backspace, esc and ctrl+u match their bindings |
| SurferProps.LetterIsUnbound | cmd/cd-surfer/model.go:88-113 | no binding takes a plain lower-case letter, so letters reach the search |
| SurferProps.AltLetterBindings | cmd/cd-surfer/model.go:88-113 | alt+d toggles details and alt+v pastes |
| SurferProps.LayoutFitsItems | cmd/cd-surfer/model.go:707-729 | a matching layout holds every item with no empty last row |
| SurferProps.ArrowCase | cmd/cd-surfer/model.go:141-167 | one arrow move keeps a visible cursor in the listing and visible, and changes only the cursor and the offset; the offset stays put when the moved cursor is still in the window and otherwise, from a non-negative offset, moves by the one row of scroll |
| SurferProps.MoveArrowKeepsCursor | cmd/cd-surfer/model.go:141-167 | the four arrows keep a visible cursor in the listing and visible; the window scrolls only when the cursor would leave it, one row up for left and up and one row down for right and down |
| SurferProps.ArrowKeepsCursorOnScreen | cmd/cd-surfer/model.go:141-167 | pressing an arrow key keeps a visible cursor in the listing and visible, and changes only the cursor and the offset; the offset moves only when the cursor would leave the window, and then by one row in the key's direction |
| SurferProps.PageKeysClampCursor | cmd/cd-surfer/model.go:169-177 | page down and page up move the cursor by a page, clamped into the listing (to the first or the last item when the page overshoots, to -1 when the listing is empty), put its row at the top of the window, and change nothing else |
| SurferProps.TildeGoesHome | cmd/cd-surfer/model.go:206-212 | `~` in list mode lists the home directory, remembers the path left as the previous path, and keeps the cursor and the offset |
| SurferProps.SlashGoesToRoot | cmd/cd-surfer/model.go:253-256 | `/` in list mode lists the root, remembers the path left as the previous path, and puts the cursor and the window at the start |
| SurferProps.HomeAndEnd | cmd/cd-surfer/model.go:179-187 | End puts the cursor on the last item and the window on the last row; Home puts both at the start |
| SurferProps.PrevSwaps | cmd/cd-surfer/model.go:214-221 | `-` swaps the current and the previous path and lists the previous one |
| SurferProps.PreviousPathTwice | cmd/cd-surfer/model.go:214-221 | pressing `-` twice restores the path, the previous path and the listing |
| SurferProps.SearchTypingEffect | cmd/cd-surfer/model.go:283-291 | typing a letter appends it to the query, shows the search result for the new query, and puts the cursor and the window at the start |
| SurferProps.LetterTyped | cmd/cd-surfer/model.go:283-291 | a lower-case letter outside enter-path mode is typed into the search |
| SurferProps.TypingSearches | cmd/cd-surfer/model.go:283-291 | pressing a letter enters search mode and shows the names that contain the extended query |
| SurferProps.CommandRuneBindings | cmd/cd-surfer/model.go:88-113 | `-`, `/` and `~` are bound to previous, root and home |
| SurferProps.SearchIgnoresCommandRunes | cmd/cd-surfer/model.go:204-256 | in search mode `-`, `/` and `~` do nothing |
| SurferProps.AltLetterTyped | cmd/cd-surfer/model.go:244-291 | in search mode alt+d and alt+v are typed into the query, not run as commands |
| SurferProps.SearchTypesAltLetters | cmd/cd-surfer/model.go:244-291 | in search mode alt+d and alt+v extend the query |
| SurferProps.EscLeavesSearch | cmd/cd-surfer/model.go:305-309 | Esc or ctrl+u in search clears the query and returns to the full listing with the cursor at the start |
| SurferProps.BackspaceInSearch | cmd/cd-surfer/model.go:293-303 | backspace drops the last query character; an emptied query returns to the listing, otherwise the result is searched again |
| SurferProps.EnterIsEnterKey | cmd/cd-surfer/model.go:189-199 | outside enter-path mode, Enter is handled by the enter case |
| SurferProps.EnterOnEmptyListing | cmd/cd-surfer/model.go:189-199 | Enter on an empty listing changes nothing |
| SurferProps.EnterOnDotQuits | cmd/cd-surfer/model.go:773-777 | Enter on "./" quits printing `cd` to the current path |
| SurferProps.EnterKeyOnDirectory | cmd/cd-surfer/model.go:786-800 | Enter on a directory (or on a link to one) lists it from the top and remembers the path it came from |
| SurferProps.EnterOnDirectory | cmd/cd-surfer/model.go:189-199 | pressing Enter on a directory lists it from the top and remembers the path it came from |
| SurferProps.EnterOnFile | cmd/cd-surfer/model.go:803-819 | Enter on a file quits with the command that runs it when executable, or that edits it otherwise, in the current directory |
| SurferProps.GoParentEffect | cmd/cd-surfer/model.go:825-846 | at the root nothing changes; otherwise the parent is listed with the cursor on the first item whose FileInfo name is the name of the directory just left (the first item when none is), and the previous path is untouched |
| SurferProps.GoParentShowsCursor | cmd/cd-surfer/model.go:825-846 | after going up to a non-empty listing the cursor is on it and displayed, because the view is centred on it |
| SurferProps.GoParentLandsOnChild | cmd/cd-surfer/model.go:825-846 | the cursor lands on the directory's own entry when the parent holds one child of that name and no "../" entry of the same name precedes it |
| SurferProps.FirstWithInfoNameIsEntry | cmd/cd-surfer/model.go:837-844 | in a listing whose synthetic entries do not carry the name, the first item with that FileInfo name is the entry of the one child so named |
| SurferProps.FirstWithInfoNameAmong | cmd/cd-surfer/model.go:837-844 | the search for the first item with a FileInfo name finds the entry of the one child so named, in any listing with the same items |
| SurferProps.GoParentCanLandOnParentEntry | cmd/cd-surfer/model.go:825-846 | when "../" is shown and the grandparent bears the name of the directory left, going up puts the cursor on "../", not on the directory |
| SurferProps.PlainNameItemIsNotDots | cmd/cd-surfer/model.go:773-784 | a plain directory's item is neither "./" nor "../" |
| SurferProps.AltBackspaceGoesUp | cmd/cd-surfer/model.go:223-225 | alt+backspace in list mode is goParent |
| SurferProps.EnterThenParent | cmd/cd-surfer/model.go:189-225 | entering a directory and then pressing alt+backspace returns to the same path and listing, with the cursor on the first item whose FileInfo name is that directory's name |
| SurferProps.ToggleSelectionEffect | cmd/cd-surfer/model.go:857-862 | only the current item's mark flips (not for items without FileInfo), the listing it lives in is the one changed, and toggling twice restores the state |
| SurferProps.ToggleDetailsTwice | cmd/cd-surfer/model.go:870-874 | toggling details twice restores the view flag and the layout |
| SurferProps.ToggleDetailsShowsCursor | cmd/cd-surfer/model.go:870-874 | toggling the details flips the flag, keeps the listing and the cursor, and leaves a cursor on the listing displayed in the new layout |
| SurferProps.DetailsAreOneColumn | cmd/cd-surfer/model.go:707-713 | the details view has one column as wide as the screen and one row per item |
| Surfer.FilterItems | cmd/cd-surfer/model.go:672-683 | the filter loop keeps exactly the matching items, each marked at its match |
| Surfer.Model.constructor | cmd/cd-surfer/model.go:66-85 | the new model is the initial state: the working directory listed |
| Surfer.Model.Ls | cmd/cd-surfer/model.go:398-486 | a fresh listing array becomes both the directory listing and the displayed items |
| Surfer.Model.MaxItemLength | cmd/cd-surfer/model.go:731-739 | the loop returns the longest displayed name |
| Surfer.Model.CalculateColsAndRows | cmd/cd-surfer/model.go:707-729 | the fields take the layout Calc defines |
| Surfer.Model.CursorAdd | cmd/cd-surfer/model.go:741-743 | only the cursor changes, to the clamped sum |
| Surfer.Model.CursorRowIx | cmd/cd-surfer/model.go:754-756 | the cursor's row, by truncating division |
| Surfer.Model.RowsDisplayed | cmd/cd-surfer/model.go:758-760 | the number of rows in the window |
| Surfer.Model.IsCursorDisplayed | cmd/cd-surfer/model.go:745-748 | whether the cursor's row lies in the window |
| Surfer.Model.AddRowOffset | cmd/cd-surfer/model.go:762-764 | only the offset changes, to the clamped sum |
| Surfer.Model.SetOffsetToMiddleScreen | cmd/cd-surfer/model.go:865-868 | only the offset changes, to the centred one |
| Surfer.Model.ChangeMode | cmd/cd-surfer/model.go:655-669 | the mode, the displayed listing and the layout change as ChangeMode says |
| Surfer.Model.SearchFilter | cmd/cd-surfer/model.go:671-697 | a fresh array holding the search result becomes the filtered listing; nothing else changes |
| Surfer.Model.CursorFromName | cmd/cd-surfer/model.go:837-844 | the loop returns the first index whose FileInfo has the name, or 0 |
| Surfer.Model.GoParent | cmd/cd-surfer/model.go:825-846 | the state changes as goParent's specification says |
| Surfer.Model.GoToPath | cmd/cd-surfer/model.go:848-855 | the state changes as goToPath's specification says |
| Surfer.Model.ToggleSelection | cmd/cd-surfer/model.go:857-862 | the selection of the current item flips in the array it lives in |
| Surfer.Model.ToggleDetails | cmd/cd-surfer/model.go:870-874 | the state changes as toggleDetails' specification says |
| Surfer.Model.CursorEnter | cmd/cd-surfer/model.go:766-823 | fails exactly on an empty listing; otherwise the state, the exit flag and the exit command are those of the cursorEnter specification |
| Surfer.Model.FileCommand | cmd/cd-surfer/model.go:804-818 | an executable file gives the run command, any other file the edit command |
| Surfer.Model.Relist | cmd/cd-surfer/model.go:398-486 | Ls followed by calculateColsAndRows: the state becomes the listed and laid-out one |
| Surfer.Model.MoveCursorToName | cmd/cd-surfer/model.go:837-844 | only the cursor changes, to the first item with that FileInfo name |
| Surfer.Model.EnterDirectory | cmd/cd-surfer/model.go:786-800 | the directory case of cursorEnter: the previous path is recorded, the child is listed and laid out from the top |
| Surfer.Model.Resize | cmd/cd-surfer/model.go:117-121 | the new size is stored and the grid laid out again, as SurferSpec.Resize |
| Surfer.Model.ArrowKey | cmd/cd-surfer/model.go:141-167 | the state and outcome follow Arrow: the clamped move, a one-row scroll when the cursor leaves the window, a panic with no layout |
| Surfer.Model.PageKey | cmd/cd-surfer/model.go:169-177 | the state and outcome follow Move for page down and page up |
| Surfer.Model.EndKey | cmd/cd-surfer/model.go:184-187 | the state and outcome follow Move for End |
| Surfer.Model.MoveKey | cmd/cd-surfer/model.go:141-187 | the state and outcome follow Move for every cursor and scrolling key |
| Surfer.Model.EnterKey | cmd/cd-surfer/model.go:189-200 | the state and outcome follow EnterKey: cursorEnter, then list mode, then quitting with its command when it asks to |
| Surfer.Model.CommandKey | cmd/cd-surfer/model.go:130-243 | the state and outcome follow Command: quitting, entering and the selection keys |
| Surfer.Model.ListCommandKey | cmd/cd-surfer/model.go:207-256 | the state and outcome follow ListCommand: `~`, `-`, alt+backspace, alt+d and `/` |
| Surfer.Model.GoHome | cmd/cd-surfer/model.go:207-213 | the home directory is listed and laid out, the current path becomes the previous one |
| Surfer.Model.GoPrevious | cmd/cd-surfer/model.go:215-222 | the current and previous paths swap, the new path is listed and laid out, and the view is centred |
| Surfer.Model.EnterPathKey | cmd/cd-surfer/model.go:258-282 | the state and outcome follow EnterPathKey: runes and space extend the input, backspace and enter as below |
| Surfer.Model.PathBackspace | cmd/cd-surfer/model.go:266-271 | the state and outcome follow PathBackspace: the last byte is dropped, an emptied input returns to list mode, an empty one panics |
| Surfer.Model.OpenTypedPath | cmd/cd-surfer/model.go:274-278 | the cleaned typed path is listed, and the current path becomes the previous one |
| Surfer.Model.PathEnter | cmd/cd-surfer/model.go:273-282 | the state follows PathEnter: a typed directory is listed from the top in list mode; anything else changes nothing |
| Surfer.Model.ExtendQuery | cmd/cd-surfer/model.go:285-289 | the query is extended by the runes, its search result stored, and the cursor and offset reset |
| Surfer.Model.SearchTyping | cmd/cd-surfer/model.go:284-292 | the state and outcome follow SearchTyping |
| Surfer.Model.SearchBackspace | cmd/cd-surfer/model.go:294-304 | the state and outcome follow SearchBackspace: the query shrinks by one, then list mode when it empties or a new search otherwise; an empty query panics |
| Surfer.Model.LeaveSearch | cmd/cd-surfer/model.go:306-310 | back to list mode from the top, with the query cleared |
| Surfer.Model.OtherKey | cmd/cd-surfer/model.go:258-310 | the state and outcome follow Other: path entry, typed runes and the search-mode editing keys |
| Surfer.Model.UpdateStateList | cmd/cd-surfer/model.go:128-313 | the new state and the outcome are exactly Step's |
| Surfer.Model.Update | cmd/cd-surfer/model.go:115-126 | the new state and the outcome are exactly Update's |
| CdsSpec.ChildItems | cmd/cds/model.go:293-303 | Ls builds one item per directory entry |
| CdsSpec.FolderRank | cmd/cds/model.go:310-330 | each item falls into one of three buckets: no FileInfo, directory, other |
| CdsSpec.MaxNameLength | cmd/cds/model.go:407-415 | the result is the length of the longest name, 0 for no items |
| CdsSpec.Calc | cmd/cds/model.go:383-405 | after calculateColsAndRows there is at least one column |
| CdsSpec.CursorEnter | cmd/cds/model.go:467-480 | defines cursorEnter: an item with FileInfo that is not a directory does nothing; anything else is joined to the path, cleaned, and listed from the top |
| CdsSpec.GoBack | cmd/cds/model.go:482-490 | defines goBack: the parent is listed and laid out from the top |
| CdsSpec.ToggleSelection | cmd/cds/model.go:492-497 | defines toggleSelection: the mark of the item under the cursor flips, unless it has no FileInfo |
| CdsSpec.Step | cmd/cds/model.go:101-190 | defines updateStateList: Esc and ctrl+c quit printing cd, then the moves, the item keys, backspace and alt+d; other keys change nothing |
| CdsProps.TestLayouts | cmd/cds/model_test.go:10-71 | the unit test's layouts: names "1", "12", "123/" at width 20 give 3 columns of 6 in one row; five 7-byte names give 2 columns of 10 in 3 rows |
| CdsProps.QuitKeysPrintCd | cmd/cds/model.go:103-111 | Esc and ctrl+c quit printing `cd "<path>"` and change nothing |
| CdsProps.KeysIgnoredOutsideList | cmd/cds/model.go:93-96 | a key message changes nothing unless the program is in the list state |
| CdsProps.ChildItemsNoParent | cmd/cds/model.go:293-303 | no item built from a real directory entry is named "../", and each has FileInfo |
| CdsProps.NoRankZero | cmd/cds/model.go:310-330 | items that all have FileInfo leave the first bucket empty |
| CdsProps.ListingStartsWithParent | cmd/cds/model.go:273-308 | the listing starts with "../" exactly when the path is not the root, folders sorted first or not |
| CdsProps.EnterOnFile | cmd/cds/model.go:467-472 | Enter on a file changes nothing |
| CdsProps.EnterOnDirectory | cmd/cds/model.go:467-480 | Enter on a directory lists it from the top with a matching layout |
| CdsProps.EnterParentIsGoBack | cmd/cds/model.go:467-490 | entering "../" is the same as goBack |
| CdsProps.EnterOnParentEntry | cmd/cds/model.go:161-167 | Enter on "../" does exactly what backspace does, and leads to the parent |
| CdsProps.GoBackIsParent | cmd/cds/model.go:482-490 | goBack lists the parent from the top with a matching layout |
| CdsProps.MaxNameLengthOfNames | cmd/cds/model.go:407-415 | the longest name depends on the names only |
| CdsProps.ToggleKeepsLayout | cmd/cds/model.go:492-497 | selecting an item keeps the layout matching |
| CdsProps.ToggleSelectionEffect | cmd/cds/model.go:492-497 | only the item under the cursor changes, keeping its name and FileInfo; its mark flips unless it has no FileInfo |
| CdsProps.ToggleDetailsEffect | cmd/cds/model.go:499-502 | the details flag flips and the grid is laid out again (one screen-wide column per item with details on), the cursor, offset, items and path are kept, and toggling twice restores a laid-out state |
| CdsProps.LayoutFitsItems | cmd/cds/model.go:383-405 | a matching layout holds every item with no empty last row |
| CdsProps.ArrowOnScreen | cmd/cds/model.go:113-139 | one arrow move keeps a visible cursor in the listing and visible, and changes only the cursor and the offset; the offset stays put when the moved cursor is still in the window and otherwise, from a non-negative offset, moves by the one row of scroll |
| CdsProps.ArrowKeepsCursorOnScreen | cmd/cds/model.go:113-139 | pressing an arrow key keeps a visible cursor in the listing and visible; the offset moves only when the cursor would leave the window, and then by one row in the key's direction |
| CdsProps.PageKeysClampCursor | cmd/cds/model.go:141-149 | page up and page down clamp the cursor into the listing (to -1 when it is empty) and put its row at the top of the window |
| CdsProps.LastItemOnLastRow | cmd/cds/model.go:383-405 | the last item lies on the layout's last row |
| CdsProps.HomeKey | cmd/cds/model.go:151-154 | Home puts the cursor and the window at the start |
| CdsProps.EndKey | cmd/cds/model.go:156-159 | End puts the cursor on the last item and the window on the last row |
| Cds.SortCdsItemsFoldersFirst | cmd/cds/model.go:310-330 | the append loop returns the entries without FileInfo, then the directories, then the rest |
| Cds.Model.constructor | cmd/cds/model.go:45-63 | the new model lists the working directory on an assumed 80x10 screen, with no layout yet |
| Cds.Model.Ls | cmd/cds/model.go:273-308 | a fresh array holding the listing becomes the items |
| Cds.Model.MaxItemLength | cmd/cds/model.go:407-415 | the loop returns the longest name |
| Cds.Model.CalculateColsAndRows | cmd/cds/model.go:383-405 | the fields take the layout Calc defines |
| Cds.Model.CursorAdd | cmd/cds/model.go:417-419 | only the cursor changes, to the clamped sum |
| Cds.Model.CursorRowIx | cmd/cds/model.go:452-454 | the cursor's row, by truncating division |
| Cds.Model.RowsDisplayed | cmd/cds/model.go:456-461 | the number of rows in the window |
| Cds.Model.IsCursorDisplayed | cmd/cds/model.go:443-446 | whether the cursor's row lies in the window |
| Cds.Model.AddRowOffset | cmd/cds/model.go:463-465 | only the offset changes, to the clamped sum |
| Cds.Model.CursorEnter | cmd/cds/model.go:467-480 | the state changes as cursorEnter's specification says |
| Cds.Model.GoBack | cmd/cds/model.go:482-490 | the state changes as goBack's specification says |
| Cds.Model.ToggleSelection | cmd/cds/model.go:492-497 | the current item's mark flips in place, unless it has no FileInfo |
| Cds.Model.ToggleDetails | cmd/cds/model.go:499-502 | the state changes as toggleDetails' specification says |
| Cds.Model.Resize | cmd/cds/model.go:88-92 | the new size is stored and the grid laid out again, as CdsSpec.Resize |
| Cds.Model.ArrowKey | cmd/cds/model.go:113-139 | the state and outcome follow Arrow: the clamped move, a one-row scroll when the cursor leaves the window, a panic with no layout |
| Cds.Model.PageKey | cmd/cds/model.go:141-149 | the state and outcome follow Move for page down and page up |
| Cds.Model.EndKey | cmd/cds/model.go:156-159 | the state and outcome follow Move for End |
| Cds.Model.MoveKey | cmd/cds/model.go:113-159 | the state and outcome follow Move for every cursor and scrolling key |
| Cds.Model.ItemKey | cmd/cds/model.go:161-183 | the state and outcome follow ItemKey: Enter enters, space, copy, cut and paste toggle the selection, and a cursor outside the listing panics |
| Cds.Model.UpdateStateList | cmd/cds/model.go:101-190 | the new state and the outcome are exactly Step's |
| Cds.Model.Update | cmd/cds/model.go:86-99 | the new state and the outcome are exactly Update's |

## Left out

- Filesystem I/O: os.ReadDir, os.Stat, os.Readlink, filepath.EvalSymlinks and the home directory lookup are the parameter `Entries.Fs`. Links are resolved by that oracle, not by the model.
- Ls panics when the directory cannot be read or stat'ed. I/O errors are outside the model, so that panic is not modelled.
- isPathOk is `fs.isDirectory` of the cleaned path. os.Stat following links is part of the oracle.
- Rendering is not modelled: View, renderList, the header and footer, colours (term/color.go, term_color) and the emphasis colouring. The details prefix of a row and its alignment are modelled.
- getDetails (user and group lookups, size and date formatting) is a foreign call; its five strings are given values.
- SurferSpec.SearchTyping: a key starts or extends the search when it is a letter from a to z. The source asks unicode.IsLetter and unicode.IsLower, which also admit other lower-case letters (é, ß); Unicode character classes are not modelled.
- SurferSpec.EditCommand: fmt.Sprintf(config.EDIT_FILE_CMD, name) is modelled as the text before the format's single `%s`, the name, and the text after it (`Config.editBefore`, `Config.editAfter`). A format with no verb, another verb, several verbs or `%%` is not modelled.
- Names are sequences of characters, and len counts them. Multi-byte UTF-8 names and Unicode case folding are not modelled; strings.ToLower is modelled for ASCII only.
- Search.SearchResultPrefixFirst: the prefix ranking uses sort.Slice, which is not stable. The model keeps the stable outcome, one of the orders sort.Slice may produce. The lemmas claim only that the prefix names come first and that no item is lost.
- FILES_SEPARATOR_SZ is taken to be positive (`Entries.ValidEnv`), since calculateColsAndRows divides by the longest name plus it.
- The shell side is not modelled. Printing the exit command to stdout and the shell's history are the outcome `Quit(command)`.
- The enter-path mode of cmd/cd-surfer is reached by no key: its binding is commented out at cmd/cd-surfer/model.go:250-252. It is modelled all the same.
- The search state of cmd/cds is never entered, so Update ignores keys there (cmd/cds/model.go:86-99).
- Bubble Tea's event loop, tea.Cmd values and the program's startup (main.go, the config file) are not modelled. Init returns no command.
- Integer widths: Go's int is 64-bit, while the model's integers are unbounded. Counts and widths of a listing stay far below the limit, so no wrap-around is modelled.
- Copy, cut and paste (C, alt+x, alt+v) only toggle the selection in the source. No file is copied or moved, and the model does the same. In cmd/cd-surfer, space does nothing, because its toggle is commented out at cmd/cd-surfer/model.go:227-230.
