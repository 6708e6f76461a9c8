/// The incremental search of cmd/cd-surfer/model.go (searchFilter): a
/// case-insensitive substring match on each name, the match's position kept
/// for emphasis, then the names that start with the query (case-sensitively)
/// ranked first. Names are ASCII here, one `char` per byte.
module Search {
  import opened Grouping
  import opened Entries

  /** strings.ToLower on one ASCII byte. */
  function LowerChar(c: char): (r: char)
    ensures 'A' <= c <= 'Z' ==> r as int == c as int + 32
    ensures !('A' <= c <= 'Z') ==> r == c
  {
    if 'A' <= c <= 'Z' then (c as int + 32) as char else c
  }

  /** strings.ToLower on an ASCII string: same length, each byte lowered. */
  function ToLower(s: string): (r: string)
    ensures |r| == |s|
    ensures forall i :: 0 <= i < |s| ==> r[i] == LowerChar(s[i])
  {
    seq(|s|, i requires 0 <= i < |s| => LowerChar(s[i]))
  }

  predicate HasPrefix(s: string, prefix: string)
  {
    |prefix| <= |s| && s[..|prefix|] == prefix
  }

  /** `sub` occurs in `s` starting at index i. */
  predicate OccursAt(s: string, sub: string, i: int)
  {
    0 <= i && i + |sub| <= |s| && s[i..i + |sub|] == sub
  }

  function IndexFrom(s: string, sub: string, k: nat): (r: int)
    decreases |s| + 1 - k
    ensures r == -1 || (k <= r && OccursAt(s, sub, r))
    ensures r == -1 ==> forall i :: k <= i ==> !OccursAt(s, sub, i)
    ensures r >= 0 ==> forall i :: k <= i < r ==> !OccursAt(s, sub, i)
  {
    if k + |sub| > |s| then -1
    else if s[k..k + |sub|] == sub then k
    else IndexFrom(s, sub, k + 1)
  }

  /** strings.Index: the first occurrence of sub in s, or -1 when there is none. */
  function IndexOf(s: string, sub: string): (r: int)
    ensures r >= -1
    ensures r == -1 <==> forall i :: !OccursAt(s, sub, i)
    ensures r >= 0 ==> OccursAt(s, sub, r) && forall i :: 0 <= i < r ==> !OccursAt(s, sub, i)
  {
    IndexFrom(s, sub, 0)
  }

  /** The name contains the query, ignoring ASCII case. */
  predicate ContainsFolded(name: string, query: string)
  {
    exists i :: 0 <= i <= |name| && OccursAt(ToLower(name), ToLower(query), i)
  }

  /** The copy of a matching item that the filter keeps: the emphasis covers
      the first case-insensitive occurrence of the query. */
  function Mark(it: Item, query: string): Item
  {
    var ix := IndexOf(ToLower(it.name), ToLower(query));
    it.(emStart := ix, emEnd := ix + |query|)
  }

  /** The filter loop of searchFilter: the matching items, in listing order. */
  function Matching(dir: seq<Item>, query: string): (r: seq<Item>)
    ensures |r| <= |dir|
  {
    if dir == [] then []
    else
      var ix := IndexOf(ToLower(dir[0].name), ToLower(query));
      var rest := Matching(dir[1..], query);
      if ix > -1 then [Mark(dir[0], query)] + rest else rest
  }

  /** The filter keeps the marked copy of exactly the items whose name
      contains the query, ignoring case. */
  lemma {:induction false} MatchingExact(dir: seq<Item>, query: string)
    ensures forall x :: x in Matching(dir, query) ==>
              exists i :: 0 <= i < |dir| && ContainsFolded(dir[i].name, query) && x == Mark(dir[i], query)
    ensures forall i :: 0 <= i < |dir| && ContainsFolded(dir[i].name, query) ==> Mark(dir[i], query) in Matching(dir, query)
  {
    if dir != [] {
      MatchingExact(dir[1..], query);
      assert forall i :: 0 < i < |dir| ==> dir[i] == dir[1..][i - 1];
    }
  }

  /** The filter loop can run over a listing in pieces. */
  lemma {:induction false} MatchingConcat(a: seq<Item>, b: seq<Item>, query: string)
    ensures Matching(a + b, query) == Matching(a, query) + Matching(b, query)
  {
    if a == [] {
      assert a + b == b;
    } else {
      assert (a + b)[0] == a[0];
      assert (a + b)[1..] == a[1..] + b;
      MatchingConcat(a[1..], b, query);
    }
  }

  /** The filter on one item keeps its marked copy exactly when the query occurs in its name. */
  lemma MatchingOne(it: Item, query: string)
    ensures Matching([it], query)
            == if IndexOf(ToLower(it.name), ToLower(query)) > -1 then [Mark(it, query)] else []
  {
    assert [it][1..] == [];
  }

  /** One more step of the filter loop: the item's marked copy is appended
      exactly when the query occurs in its name. */
  lemma MatchingSnoc(dir: seq<Item>, it: Item, query: string)
    ensures Matching(dir + [it], query)
            == Matching(dir, query)
               + if IndexOf(ToLower(it.name), ToLower(query)) > -1 then [Mark(it, query)] else []
  {
    MatchingConcat(dir, [it], query);
    MatchingOne(it, query);
  }

  /** The filter loop after i + 1 items of a listing. */
  lemma MatchingPrefixStep(dir: seq<Item>, i: int, query: string)
    requires 0 <= i < |dir|
    ensures Matching(dir[..i + 1], query)
            == Matching(dir[..i], query)
               + if IndexOf(ToLower(dir[i].name), ToLower(query)) > -1 then [Mark(dir[i], query)] else []
  {
    assert dir[..i + 1] == dir[..i] + [dir[i]];
    MatchingSnoc(dir[..i], dir[i], query);
  }

  /** The sort's rank: names with the query as a (case-sensitive) prefix first. */
  function PrefixRank(query: string): Item -> nat
  {
    (it: Item) => if HasPrefix(it.name, query) then 0 else 1
  }

  /** searchFilter: the filtered items, prefix matches first. Go's sort.Slice
      gives no stability; this model keeps each group in listing order. */
  function SearchResult(dir: seq<Item>, query: string): seq<Item>
  {
    Grouped(Matching(dir, query), PrefixRank(query))
  }

  /** An item's name matches exactly when its marked copy is in the result. */
  lemma SearchResultMatches(dir: seq<Item>, query: string)
    ensures forall x :: x in SearchResult(dir, query) ==>
              exists i :: 0 <= i < |dir| && ContainsFolded(dir[i].name, query) && x == Mark(dir[i], query)
    ensures forall i :: 0 <= i < |dir| && ContainsFolded(dir[i].name, query) ==>
              Mark(dir[i], query) in SearchResult(dir, query)
  {
    SameItemsAsMatching(dir, query);
    MatchingExact(dir, query);
  }

  lemma SameItemsAsMatching(dir: seq<Item>, query: string)
    ensures forall x :: x in SearchResult(dir, query) <==> x in Matching(dir, query)
  {
    var m := Matching(dir, query);
    RanksAtMostOne(m, query);
    GroupedIsPermutation(m, PrefixRank(query));
    forall x ensures x in SearchResult(dir, query) <==> x in m {
      assert x in SearchResult(dir, query) <==> x in multiset(SearchResult(dir, query));
      assert x in m <==> x in multiset(m);
    }
  }

  lemma RanksAtMostOne(s: seq<Item>, query: string)
    ensures RanksAtMost(s, PrefixRank(query), 1)
  {
  }

  /** The result is a reordering of the matching items: none lost, none added. */
  lemma SearchResultIsPermutation(dir: seq<Item>, query: string)
    ensures multiset(SearchResult(dir, query)) == multiset(Matching(dir, query))
  {
    RanksAtMostOne(Matching(dir, query), query);
    GroupedIsPermutation(Matching(dir, query), PrefixRank(query));
  }

  /** Every name that starts with the query comes before every name that does not. */
  lemma SearchResultPrefixFirst(dir: seq<Item>, query: string)
    ensures var r := SearchResult(dir, query);
            forall i, j :: 0 <= i < |r| && 0 <= j < |r| && HasPrefix(r[j].name, query) && !HasPrefix(r[i].name, query)
              ==> j < i
  {
    var r := SearchResult(dir, query);
    GroupedIsOrdered(Matching(dir, query), PrefixRank(query));
    forall i, j | 0 <= i < |r| && 0 <= j < |r| && HasPrefix(r[j].name, query) && !HasPrefix(r[i].name, query)
      ensures j < i
    {
      assert PrefixRank(query)(r[j]) == 0 && PrefixRank(query)(r[i]) == 1;
    }
  }

  /** The emphasis of a kept item covers exactly the query, ignoring case. */
  lemma MarkedEmphasis(it: Item, query: string)
    requires ContainsFolded(it.name, query)
    ensures var m := Mark(it, query);
            0 <= m.emStart <= m.emEnd <= |it.name|
            && ToLower(it.name)[m.emStart..m.emEnd] == ToLower(query)
  {
  }

  /** The empty query is found at the start of every name. */
  lemma MarkEmptyQuery(it: Item)
    ensures Mark(it, "") == it.(emStart := 0, emEnd := 0)
  {
    var s := ToLower(it.name);
    assert ToLower("") == "";
    assert OccursAt(s, "", 0);
  }

  /** The empty query keeps every item, in order, with an empty emphasis at the start. */
  lemma {:induction false} EmptyQueryKeepsAll(dir: seq<Item>)
    ensures |Matching(dir, "")| == |dir|
    ensures forall i :: 0 <= i < |dir| ==> Matching(dir, "")[i] == dir[i].(emStart := 0, emEnd := 0)
  {
    if dir != [] {
      EmptyQueryKeepsAll(dir[1..]);
      MarkEmptyQuery(dir[0]);
      var rest := Matching(dir[1..], "");
      assert Matching(dir, "") == [Mark(dir[0], "")] + rest;
      forall i | 0 < i < |dir| ensures Matching(dir, "")[i] == dir[i].(emStart := 0, emEnd := 0) {
        assert Matching(dir, "")[i] == rest[i - 1];
        assert dir[1..][i - 1] == dir[i];
      }
    }
  }
}
