/// The details view of cmd/cd-surfer/model.go: getDetailsSizes finds the
/// width of each details column over the whole listing, and each row pads
/// its five values to those widths with term.Width, so the columns line up
/// and no value is cut. The values themselves (permissions, owner, group,
/// size, date) come from foreign calls and are taken as given strings.
module DetailsColumns {
  import opened Misc
  import opened Render
  import opened Entries

  datatype Column = Perm | User | Group | Size | Date

  function Field(d: Details, c: Column): string
  {
    match c
    case Perm => d.perm
    case User => d.username
    case Group => d.group
    case Size => d.size
    case Date => d.date
  }

  /** The widest value of one column over a listing, 0 for no items. */
  function ColumnWidth(all: seq<Item>, c: Column): (r: nat)
    ensures forall i :: 0 <= i < |all| ==> |Field(all[i].details, c)| <= r
    ensures all == [] ==> r == 0
    ensures all != [] ==> exists i :: 0 <= i < |all| && r == |Field(all[i].details, c)|
  {
    if all == [] then 0
    else
      var init := all[..|all| - 1];
      var rest := ColumnWidth(init, c);
      assert forall i :: 0 <= i < |init| ==> all[i] == init[i];
      Max(rest, |Field(all[|all| - 1].details, c)|)
  }

  /** One more item of the listing widens each column to its value. */
  lemma ColumnWidthStep(all: seq<Item>, i: int)
    requires 0 <= i < |all|
    ensures forall c :: ColumnWidth(all[..i + 1], c) == Max(ColumnWidth(all[..i], c), |Field(all[i].details, c)|)
  {
    assert all[..i + 1][..i] == all[..i];
  }

  /** getDetailsSizes: one loop keeping the five running maxima. */
  method GetDetailsSizes(all: seq<Item>) returns (permSz: nat, userSz: nat, groupSz: nat, sizeSz: nat, dateSz: nat)
    ensures permSz == ColumnWidth(all, Perm) && userSz == ColumnWidth(all, User)
    ensures groupSz == ColumnWidth(all, Group) && sizeSz == ColumnWidth(all, Size)
    ensures dateSz == ColumnWidth(all, Date)
  {
    permSz, userSz, groupSz, sizeSz, dateSz := 0, 0, 0, 0, 0;
    for i := 0 to |all|
      invariant permSz == ColumnWidth(all[..i], Perm) && userSz == ColumnWidth(all[..i], User)
      invariant groupSz == ColumnWidth(all[..i], Group) && sizeSz == ColumnWidth(all[..i], Size)
      invariant dateSz == ColumnWidth(all[..i], Date)
    {
      var it := all[i];
      ColumnWidthStep(all, i);
      permSz := Max(permSz, |it.details.perm|);
      userSz := Max(userSz, |it.details.username|);
      groupSz := Max(groupSz, |it.details.group|);
      sizeSz := Max(sizeSz, |it.details.size|);
      dateSz := Max(dateSz, |it.details.date|);
    }
    assert all[..|all|] == all;
  }

  /** The uncoloured details prefix of one row: the five values, each padded
      to its column's width and followed by the separator. */
  function DetailsText(d: Details, all: seq<Item>, sep: string): string
  {
    Width(d.perm, ColumnWidth(all, Perm)) + sep
    + Width(d.username, ColumnWidth(all, User)) + sep
    + Width(d.group, ColumnWidth(all, Group)) + sep
    + Width(d.size, ColumnWidth(all, Size)) + sep
    + Width(d.date, ColumnWidth(all, Date)) + sep
  }

  /** Every row's details prefix has the same length, so the names after it
      start in the same column. */
  lemma DetailsAligned(d: Details, all: seq<Item>, sep: string)
    ensures |DetailsText(d, all, sep)|
            == ColumnWidth(all, Perm) + ColumnWidth(all, User) + ColumnWidth(all, Group)
               + ColumnWidth(all, Size) + ColumnWidth(all, Date) + 5 * |sep|
  {
  }

  /** No value of the listing is cut: each cell is the value followed by padding. */
  lemma CellKeepsValue(all: seq<Item>, i: int, c: Column)
    requires 0 <= i < |all|
    ensures var f := Field(all[i].details, c);
            Width(f, ColumnWidth(all, c)) == f + Spaces(ColumnWidth(all, c) - |f|)
  {
    WidthKeepsShortValue(Field(all[i].details, c), ColumnWidth(all, c));
  }

  /** The widest value of a column fills its cell exactly. */
  lemma WidestValueFillsCell(all: seq<Item>, c: Column)
    requires all != []
    ensures exists i :: 0 <= i < |all| && Width(Field(all[i].details, c), ColumnWidth(all, c)) == Field(all[i].details, c)
  {
    var i :| 0 <= i < |all| && ColumnWidth(all, c) == |Field(all[i].details, c)|;
    assert Width(Field(all[i].details, c), ColumnWidth(all, c)) == Field(all[i].details, c);
  }
}
