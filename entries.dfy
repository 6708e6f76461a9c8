/// The listing entries of cmd/cd-surfer/model.go: file information with Go's
/// FileMode bits, the Item shown in the grid, the folders-first ordering
/// (sortItemsFoldersFirst) and the assembly of a directory's listing (Ls).
/// The filesystem itself is an oracle: what a directory holds, what the
/// parent directory's stat gives, which paths are directories, and the home
/// directory.
module Entries {
  import opened Wrappers
  import opened Paths
  import opened Grouping

  /** Go's os.FileMode: type bits at the top, permission bits at the bottom. */
  type FileMode = bv32

  const ModeDir: FileMode := 0x8000_0000
  const ModeSymlink: FileMode := 0x0800_0000
  const ModeDevice: FileMode := 0x0400_0000
  /** 0111: the execute bits of owner, group and others. */
  const ExecBits: FileMode := 0x49

  /** os.FileInfo, as far as the browser looks at it. */
  datatype FileInfo = FileInfo(name: string, mode: FileMode)

  predicate IsDir(fi: FileInfo)
  {
    fi.mode & ModeDir != 0
  }

  predicate IsSymlink(fi: FileInfo)
  {
    fi.mode & ModeSymlink != 0
  }

  /** isFileExecutable: a nil FileInfo is not executable. */
  predicate IsFileExecutable(fi: Option<FileInfo>)
  {
    fi.Some? && fi.value.mode & ExecBits != 0
  }

  /** isFileExecutable holds exactly when one of the three execute bits
      (owner 0100, group 0010, others 0001) is set. */
  lemma ExecutableIffSomeExecuteBit(fi: FileInfo)
    ensures IsFileExecutable(Some(fi)) <==>
            (fi.mode & 0x40 != 0 || fi.mode & 0x08 != 0 || fi.mode & 0x01 != 0)
  {
  }

  /** The columns of the details view; their text comes from foreign calls
      (user and group lookups, size and date formatting) and is taken as given. */
  datatype Details = Details(perm: string, username: string, group: string, size: string, date: string)

  const NoDetails := Details("", "", "", "", "")

  /** One cell of the listing. `info` is None for the "./" marker;
      `linkTarget` is present for a symbolic link; [emStart, emEnd) is the
      emphasised part of the name during a search. */
  datatype Item = Item(
    name: string,
    info: Option<FileInfo>,
    linkTarget: Option<FileInfo>,
    linkPath: string,
    emStart: int,
    emEnd: int,
    isSelected: bool,
    details: Details)

  /** What the directory listing yields for one child: its own information
      (not following links), the target's information and link text (looked at
      only for a link), and its details. */
  datatype DirEntry = DirEntry(info: FileInfo, target: FileInfo, targetPath: string, details: Details)

  /** The stat of the parent directory, used for the "../" entry. */
  datatype Stat = Stat(info: FileInfo, details: Details)

  /** The filesystem as the browser sees it. */
  datatype Fs = Fs(
    readDir: Path -> seq<DirEntry>,
    parentStat: Path -> Stat,
    isDirectory: Path -> bool,
    home: Path)

  /** The configuration read once at startup. */
  datatype Config = Config(
    showDetails: bool,
    addOneDot: bool,
    addTwoDot: bool,
    foldersFirst: bool,
    filesSeparator: nat,
    editBefore: string,
    editAfter: string,
    addToHistory: bool)

  /** The environment: the configuration constants and the filesystem. */
  datatype Env = Env(cfg: Config, fs: Fs)

  /** The source divides by the longest name plus FILES_SEPARATOR_SZ, so the
      separator is taken to be positive. */
  predicate ValidEnv(env: Env)
  {
    env.cfg.filesSeparator > 0
  }

  const DotItem := Item("./", None, None, "", 0, 0, false, NoDetails)

  function ParentItem(st: Stat): Item
  {
    Item("../", Some(st.info), None, "", 0, 0, false, st.details)
  }

  /** The item Ls builds for one child: directories get a trailing "/", links
      carry their target. */
  function EntryItem(e: DirEntry): Item
  {
    Item(
      if IsDir(e.info) then e.info.name + "/" else e.info.name,
      Some(e.info),
      if IsSymlink(e.info) then Some(e.target) else None,
      if IsSymlink(e.info) then e.targetPath else "",
      0, 0, false, e.details)
  }

  function EntryItems(es: seq<DirEntry>): (r: seq<Item>)
    ensures |r| == |es|
  {
    seq(|es|, i requires 0 <= i < |es| => EntryItem(es[i]))
  }

  /** The synthetic entries that start a listing: "./" when configured, then
      "../" when configured and the path is not the root. */
  function RelDirs(cfg: Config, fs: Fs, p: Path): seq<Item>
  {
    (if cfg.addOneDot then [DotItem] else [])
    + (if p == Root || !cfg.addTwoDot then [] else [ParentItem(fs.parentStat(p))])
  }

  /** sortItemsFoldersFirst's three buckets: items without FileInfo, then
      directories, then everything else. A link is not a directory here, even
      when it points to one. */
  function FolderRank(it: Item): (r: nat)
    ensures r <= 2
  {
    if it.info.None? then 0 else if IsDir(it.info.value) then 1 else 2
  }

  function FoldersFirst(items: seq<Item>): seq<Item>
  {
    Grouped(items, FolderRank)
  }

  /** Ls: the listing of path p, as the browser stores it. */
  function Listing(cfg: Config, fs: Fs, p: Path): seq<Item>
  {
    var all := RelDirs(cfg, fs, p) + EntryItems(fs.readDir(p));
    if cfg.foldersFirst then FoldersFirst(all) else all
  }

  /** sortItemsFoldersFirst, with its append loop. */
  method SortItemsFoldersFirst(items: seq<Item>) returns (ret: seq<Item>)
    ensures ret == FoldersFirst(items)
  {
    var folders: seq<Item> := [];
    var files: seq<Item> := [];
    var other: seq<Item> := [];
    for i := 0 to |items|
      invariant other == Bucket(items[..i], FolderRank, 0)
      invariant folders == Bucket(items[..i], FolderRank, 1)
      invariant files == Bucket(items[..i], FolderRank, 2)
    {
      var it := items[i];
      assert items[..i + 1] == items[..i] + [it];
      BucketConcat(items[..i], [it], FolderRank, 0);
      BucketConcat(items[..i], [it], FolderRank, 1);
      BucketConcat(items[..i], [it], FolderRank, 2);
      if it.info.None? {
        other := other + [it];
        continue;
      }
      if IsDir(it.info.value) {
        folders := folders + [it];
        continue;
      }
      files := files + [it];
    }
    assert items[..|items|] == items;
    ret := other + folders;
    ret := ret + files;
  }

  /** Folders-first reorders without losing or duplicating an item. */
  lemma FoldersFirstIsPermutation(items: seq<Item>)
    ensures multiset(FoldersFirst(items)) == multiset(items)
    ensures |FoldersFirst(items)| == |items|
  {
    GroupedIsPermutation(items, FolderRank);
  }

  /** Items without FileInfo come first, then directories, then the rest. */
  lemma FoldersFirstIsOrdered(items: seq<Item>)
    ensures forall i, j :: 0 <= i < j < |FoldersFirst(items)| ==>
              FolderRank(FoldersFirst(items)[i]) <= FolderRank(FoldersFirst(items)[j])
  {
    GroupedIsOrdered(items, FolderRank);
  }

  /** Within each bucket the listing's own order is kept. */
  lemma FoldersFirstIsStable(items: seq<Item>, k: nat)
    requires k <= 2
    ensures Bucket(FoldersFirst(items), FolderRank, k) == Bucket(items, FolderRank, k)
  {
    GroupedIsStable(items, FolderRank, k);
  }

  /** A child's item is named "../" only if the child is called "..". */
  lemma EntryItemsNoParent(es: seq<DirEntry>)
    requires forall e :: e in es ==> e.info.name != ".." && '/' !in e.info.name
    ensures forall x :: x in EntryItems(es) ==> x.name != "../"
  {
    forall i | 0 <= i < |es| ensures EntryItem(es[i]).name != "../" {
      assert es[i] in es;
      var n := es[i].info.name;
      assert (n + "/")[..|n|] == n;
      assert "../"[2] == '/';
    }
  }

  /** The listing holds the same items as its unsorted assembly. */
  lemma ListingSameItems(cfg: Config, fs: Fs, p: Path)
    ensures forall x :: x in Listing(cfg, fs, p) <==> x in RelDirs(cfg, fs, p) + EntryItems(fs.readDir(p))
  {
    var all := RelDirs(cfg, fs, p) + EntryItems(fs.readDir(p));
    if cfg.foldersFirst {
      FoldersFirstIsPermutation(all);
      forall x ensures x in FoldersFirst(all) <==> x in all {
        assert x in FoldersFirst(all) <==> x in multiset(FoldersFirst(all));
        assert x in all <==> x in multiset(all);
      }
    }
  }

  /** The "../" entry is in the listing exactly when it is configured and the
      path is not the root (child names never contain "/"; none is ".."). */
  lemma ListingHasParentEntry(cfg: Config, fs: Fs, p: Path)
    requires forall e :: e in fs.readDir(p) ==> e.info.name != ".." && '/' !in e.info.name
    ensures (exists x :: x in Listing(cfg, fs, p) && x.name == "../") <==> cfg.addTwoDot && p != Root
  {
    var rel := RelDirs(cfg, fs, p);
    var ents := EntryItems(fs.readDir(p));
    ListingSameItems(cfg, fs, p);
    EntryItemsNoParent(fs.readDir(p));
    if cfg.addTwoDot && p != Root {
      assert ParentItem(fs.parentStat(p)) in rel + ents;
    } else {
      forall x: Item | x in rel + ents ensures x.name != "../" {
        assert x in rel || x in ents;
      }
    }
  }

  /** Every child has FileInfo, so none sorts into the first bucket. */
  lemma {:induction false} EntryItemsRankNonZero(es: seq<DirEntry>)
    ensures Bucket(EntryItems(es), FolderRank, 0) == []
  {
    if es != [] {
      assert EntryItems(es)[1..] == EntryItems(es[1..]);
      EntryItemsRankNonZero(es[1..]);
    }
  }

  /** "./" (rank 0) and a directory "../" (rank 1) fall into the first two
      buckets, one each. */
  lemma RelDirsBuckets(dots: seq<Item>, up: Item)
    requires dots == [] || dots == [DotItem]
    requires up.info.Some? && IsDir(up.info.value)
    ensures Bucket(dots + [up], FolderRank, 0) == dots
    ensures Bucket(dots + [up], FolderRank, 1) == [up]
  {
    BucketConcat(dots, [up], FolderRank, 0);
    BucketConcat(dots, [up], FolderRank, 1);
    assert Bucket([up], FolderRank, 0) == [] && Bucket([up], FolderRank, 1) == [up] by {
      assert [up][1..] == [];
    }
    assert Bucket(dots, FolderRank, 0) == dots && Bucket(dots, FolderRank, 1) == [] by {
      if dots != [] {
        assert dots[1..] == [];
      }
    }
  }

  /** Folders first keeps a leading "./" and a directory "../" at the front
      when no child has rank 0. */
  lemma FoldersFirstKeepsRelDirs(dots: seq<Item>, up: Item, ents: seq<Item>)
    requires dots == [] || dots == [DotItem]
    requires up.info.Some? && IsDir(up.info.value)
    requires Bucket(ents, FolderRank, 0) == []
    ensures var l := FoldersFirst(dots + [up] + ents);
            |dots| < |l| && l[|dots|] == up && l[..|dots|] == dots
  {
    var rel := dots + [up];
    BucketConcat(rel, ents, FolderRank, 0);
    BucketConcat(rel, ents, FolderRank, 1);
    RelDirsBuckets(dots, up);
    var b0, b1 := Bucket(rel + ents, FolderRank, 0), Bucket(rel + ents, FolderRank, 1);
    assert b0 == dots;
    assert b1[0] == up;
    var l := b0 + b1 + Bucket(rel + ents, FolderRank, 2);
    assert l[|b0|] == b1[0];
    assert l[..|b0|] == b0;
  }

  /** With "../" configured below the root and the parent a directory, the
      listing opens with "./" (when configured) and then "../", sorted or not:
      both land in the first two folders-first buckets, ahead of every child. */
  lemma ListingStartsWithRelDirs(cfg: Config, fs: Fs, p: Path)
    requires p != Root && cfg.addTwoDot && IsDir(fs.parentStat(p).info)
    ensures var l := Listing(cfg, fs, p);
            var k := if cfg.addOneDot then 1 else 0;
            && k < |l| && l[k] == ParentItem(fs.parentStat(p))
            && forall j :: 0 <= j < k ==> l[j] == DotItem
  {
    var dots: seq<Item> := if cfg.addOneDot then [DotItem] else [];
    var up := ParentItem(fs.parentStat(p));
    var ents := EntryItems(fs.readDir(p));
    assert RelDirs(cfg, fs, p) == dots + [up];
    if cfg.foldersFirst {
      EntryItemsRankNonZero(fs.readDir(p));
      FoldersFirstKeepsRelDirs(dots, up, ents);
      var l := Listing(cfg, fs, p);
      forall j | 0 <= j < |dots| ensures l[j] == DotItem {
        assert l[..|dots|][j] == l[j];
      }
    }
  }
}
