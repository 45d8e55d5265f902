/**
 * The inventory side of the selection page (pages/index.js): the catalog item,
 * its partition into the four selection groups, and the rewrite of a Drive
 * share link into a direct-download image URL.
 */
module Inventory {
  import opened Wrappers
  import opened Seqs

  /** One catalog entry; `productName` is its identity everywhere on the page. */
  datatype Item = Item(productName: string, imageUrl: string, selectionOption: string)

  const Included := "Included"
  const Pick1 := "Pick 1"
  const Pick3 := "Pick 3"
  const Pick2 := "Pick 2"

  /** The four groups the page renders, each in inventory order. */
  datatype Groups = Groups(included: seq<Item>, pick1: seq<Item>, pick3: seq<Item>, pick2: seq<Item>)

  function HasLabel(option: string): Item -> bool
  {
    (item: Item) => item.selectionOption == option
  }

  predicate Recognized(option: string)
  {
    option == Included || option == Pick1 || option == Pick3 || option == Pick2
  }

  function IsUnrecognized(): Item -> bool
  {
    (item: Item) => !Recognized(item.selectionOption)
  }

  /** Splits the flat inventory by `selectionOption`; items with any other label are dropped. */
  function Partition(inventory: seq<Item>): (g: Groups)
    ensures forall x :: x in g.included <==> x in inventory && x.selectionOption == Included
    ensures forall x :: x in g.pick1 <==> x in inventory && x.selectionOption == Pick1
    ensures forall x :: x in g.pick3 <==> x in inventory && x.selectionOption == Pick3
    ensures forall x :: x in g.pick2 <==> x in inventory && x.selectionOption == Pick2
  {
    Groups(Filter(inventory, HasLabel(Included)), Filter(inventory, HasLabel(Pick1)),
           Filter(inventory, HasLabel(Pick3)), Filter(inventory, HasLabel(Pick2)))
  }

  /** An item whose label is none of the four appears in no group. */
  lemma PartitionDropsUnrecognized(inventory: seq<Item>, x: Item)
    requires !Recognized(x.selectionOption)
    ensures var g := Partition(inventory);
      x !in g.included && x !in g.pick1 && x !in g.pick3 && x !in g.pick2
  {
  }

  /**
   * Each group is the ordered subsequence of its label's items: partitioning a
   * concatenation concatenates the groups, and a single item lands in its
   * label's group alone.
   */
  lemma PartitionConcat(a: seq<Item>, b: seq<Item>)
    ensures var g, ga, gb := Partition(a + b), Partition(a), Partition(b);
      g.included == ga.included + gb.included && g.pick1 == ga.pick1 + gb.pick1 &&
      g.pick3 == ga.pick3 + gb.pick3 && g.pick2 == ga.pick2 + gb.pick2
  {
    FilterConcat(a, b, HasLabel(Included));
    FilterConcat(a, b, HasLabel(Pick1));
    FilterConcat(a, b, HasLabel(Pick3));
    FilterConcat(a, b, HasLabel(Pick2));
  }

  lemma PartitionSingle(x: Item)
    ensures var g := Partition([x]);
      g.included == (if x.selectionOption == Included then [x] else []) &&
      g.pick1 == (if x.selectionOption == Pick1 then [x] else []) &&
      g.pick3 == (if x.selectionOption == Pick3 then [x] else []) &&
      g.pick2 == (if x.selectionOption == Pick2 then [x] else [])
  {
  }

  /** Every item lands in exactly one group or is dropped: the sizes add up. */
  lemma {:induction false} PartitionSizes(inventory: seq<Item>)
    ensures var g := Partition(inventory);
      |g.included| + |g.pick1| + |g.pick3| + |g.pick2| + |Filter(inventory, IsUnrecognized())| == |inventory|
    decreases |inventory|
  {
    if inventory != [] {
      var x, rest := inventory[0], inventory[1..];
      assert inventory == [x] + rest;
      PartitionConcat([x], rest);
      PartitionSingle(x);
      FilterConcat([x], rest, IsUnrecognized());
      PartitionSizes(rest);
    }
  }

  // ---- transformImageUrl: the regular expression /\/d\/([^/]+)/ ----

  const DriveDownloadPrefix := "https://drive.google.com/uc?export=download&id="

  /** The pattern matches at `i`: "/d/" followed by at least one character other than '/'. */
  predicate MatchAt(s: string, i: int)
  {
    0 <= i && i + 3 < |s| && s[i] == '/' && s[i + 1] == 'd' && s[i + 2] == '/' && s[i + 3] != '/'
  }

  /** The length of the maximal run of non-'/' characters starting at `j` (the greedy `[^/]+`). */
  function RunLength(s: string, j: nat): (n: nat)
    requires j <= |s|
    ensures j + n <= |s|
    ensures j + n == |s| || s[j + n] == '/'
    decreases |s| - j
  {
    if j < |s| && s[j] != '/' then 1 + RunLength(s, j + 1) else 0
  }

  /** No character of the run is a '/'. */
  lemma {:induction false} RunLengthNoSlash(s: string, j: nat)
    requires j <= |s|
    ensures forall k :: j <= k < j + RunLength(s, j) ==> s[k] != '/'
    decreases |s| - j
  {
    if j < |s| && s[j] != '/' {
      RunLengthNoSlash(s, j + 1);
    }
  }

  /** `i` is the leftmost position at or after `from` where the pattern matches. */
  predicate LeftmostFrom(s: string, from: nat, i: int)
  {
    from <= i && MatchAt(s, i) && forall k :: from <= k < i ==> !MatchAt(s, k)
  }

  /** The captured group of a match at `i`. */
  function DriveId(s: string, i: int): string
    requires MatchAt(s, i)
  {
    s[i + 3..i + 3 + RunLength(s, i + 3)]
  }

  /** The captured group is the maximal non-empty run of non-'/' characters right after "/d/". */
  lemma DriveIdSpec(s: string, i: int)
    requires MatchAt(s, i)
    ensures var id := DriveId(s, i);
      |id| >= 1 && i + 3 + |id| <= |s| && id == s[i + 3..i + 3 + |id|] &&
      (forall k :: i + 3 <= k < i + 3 + |id| ==> s[k] != '/') &&
      (i + 3 + |id| == |s| || s[i + 3 + |id|] == '/')
  {
    var n := RunLength(s, i + 3);
    RunLengthNoSlash(s, i + 3);
    assert s[i + 3] != '/';
    assert n >= 1;
  }

  /** The captured group of the leftmost match at or after `from`, if any. */
  function FindDriveId(s: string, from: nat): (r: Option<string>)
    requires from <= |s|
    ensures r.None? <==> forall i :: from <= i ==> !MatchAt(s, i)
    decreases |s| - from
  {
    if from + 3 >= |s| then None
    else if MatchAt(s, from) then Some(DriveId(s, from))
    else FindDriveId(s, from + 1)
  }

  /** The search finds the leftmost match, whichever it is. */
  lemma {:induction false} FindDriveIdLeftmost(s: string, from: nat, i: int)
    requires from <= |s| && LeftmostFrom(s, from, i)
    ensures FindDriveId(s, from) == Some(DriveId(s, i))
    decreases |s| - from
  {
    if from < i {
      FindDriveIdSkip(s, from);
      FindDriveIdLeftmost(s, from + 1, i);
    } else {
      FindDriveIdAt(s, from);
    }
  }

  /** Whatever the search reports is the capture of the leftmost match. */
  lemma {:induction false} FindDriveIdSound(s: string, from: nat)
    requires from <= |s|
    ensures FindDriveId(s, from).Some? ==>
      exists i :: LeftmostFrom(s, from, i) && FindDriveId(s, from).value == DriveId(s, i)
    decreases |s| - from
  {
    if from + 3 < |s| {
      if MatchAt(s, from) {
        FindDriveIdAt(s, from);
        assert LeftmostFrom(s, from, from);
      } else {
        FindDriveIdSkip(s, from);
        FindDriveIdSound(s, from + 1);
        if FindDriveId(s, from + 1).Some? {
          var i :| LeftmostFrom(s, from + 1, i) && FindDriveId(s, from + 1).value == DriveId(s, i);
          assert LeftmostFrom(s, from, i);
        }
      }
    }
  }

  /** A position where the pattern does not match is skipped. */
  lemma FindDriveIdSkip(s: string, from: nat)
    requires from + 3 < |s| && !MatchAt(s, from)
    ensures FindDriveId(s, from) == FindDriveId(s, from + 1)
  {
  }

  /** A match at the search position is the one reported. */
  lemma FindDriveIdAt(s: string, from: nat)
    requires MatchAt(s, from)
    ensures FindDriveId(s, from) == Some(DriveId(s, from))
  {
  }

  /**
   * A Drive share link becomes a direct-download URL carrying the id captured
   * after the leftmost "/d/" that is followed by a non-'/' character; any
   * other URL is returned unchanged.
   */
  function TransformImageUrl(url: string): (r: string)
    ensures (forall i :: !MatchAt(url, i)) ==> r == url
    ensures forall i :: LeftmostFrom(url, 0, i) ==> r == DriveDownloadPrefix + DriveId(url, i)
  {
    TransformFindsLeftmost(url);
    match FindDriveId(url, 0)
    case Some(id) => DriveDownloadPrefix + id
    case None => url
  }

  lemma TransformFindsLeftmost(url: string)
    ensures forall i :: LeftmostFrom(url, 0, i) ==> FindDriveId(url, 0) == Some(DriveId(url, i))
  {
    forall i | LeftmostFrom(url, 0, i)
      ensures FindDriveId(url, 0) == Some(DriveId(url, i))
    {
      FindDriveIdLeftmost(url, 0, i);
    }
  }
}
