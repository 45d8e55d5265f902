/**
 * The selection state of the page (pages/index.js): one bag picked from
 * "Pick 1", three bookstore patches toggled from "Pick 3", two other patches
 * toggled from "Pick 2", and the contact fields. Items are compared by
 * `productName` throughout.
 */
module Selection {
  import opened Wrappers
  import opened Seqs
  import opened Text
  import opened Inventory

  const Pick3Limit: nat := 3
  const Pick2Limit: nat := 2

  /** Some entry of `s` carries the `productName` `name`. */
  predicate HasName(s: seq<Item>, name: string)
  {
    exists i :: 0 <= i < |s| && s[i].productName == name
  }

  /** No two entries share a `productName`. */
  predicate UniqueNames(s: seq<Item>)
  {
    forall i, j :: 0 <= i < j < |s| ==> s[i].productName != s[j].productName
  }

  function NameIsNot(name: string): Item -> bool
  {
    (item: Item) => item.productName != name
  }

  /** The entries of `s` whose `productName` differs from `name`, in order. */
  function RemoveName(s: seq<Item>, name: string): (r: seq<Item>)
    ensures forall x :: x in r <==> x in s && x.productName != name
  {
    Filter(s, NameIsNot(name))
  }

  /**
   * One click on a multi-pick item (`handleTogglePick3`, `handleTogglePick2`):
   * an item already chosen is removed, an absent one is appended while the
   * list is below `limit`, and at the limit the click does nothing.
   */
  function Toggle(s: seq<Item>, item: Item, limit: nat): (r: seq<Item>)
    ensures |s| <= limit ==> |r| <= limit
    ensures forall x :: x in r ==> x in s || x == item
    ensures HasName(r, item.productName) <==> !HasName(s, item.productName) && |s| < limit
  {
    if HasName(s, item.productName) then RemoveName(s, item.productName)
    else if |s| < limit then assert (s + [item])[|s|] == item; s + [item]
    else s
  }

  /** One click on a bag (`handleSelectPick1`): clicking the current bag clears it. */
  function SelectSingle(current: Option<Item>, item: Item): (r: Option<Item>)
    ensures r.Some? ==> r.value == item
    ensures r.None? ==> current.Some?
  {
    if current.Some? && current.value.productName == item.productName then None else Some(item)
  }

  lemma NotHasName(s: seq<Item>, name: string)
    requires !HasName(s, name)
    ensures forall x :: x in s ==> x.productName != name
  {
    forall x | x in s
      ensures x.productName != name
    {
      var i :| 0 <= i < |s| && s[i] == x;
    }
  }

  lemma {:induction false} RemoveNameShrinks(s: seq<Item>, name: string)
    requires HasName(s, name)
    ensures |RemoveName(s, name)| < |s|
  {
    var i :| 0 <= i < |s| && s[i].productName == name;
    FilterShorter(s, NameIsNot(name), i);
  }

  lemma NoEntryNamed(s: seq<Item>, name: string)
    requires forall x :: x in s ==> x.productName != name
    ensures !HasName(s, name)
  {
    forall i | 0 <= i < |s|
      ensures s[i].productName != name
    {
      assert s[i] in s;
    }
  }

  lemma UniqueSplit(s: seq<Item>)
    requires s != [] && UniqueNames(s)
    ensures UniqueNames(s[1..])
    ensures forall y :: y in s[1..] ==> y.productName != s[0].productName
  {
    forall y | y in s[1..]
      ensures y.productName != s[0].productName
    {
      var k :| 0 <= k < |s[1..]| && s[1..][k] == y;
      assert s[k + 1] == y;
    }
  }

  lemma UniqueCons(x: Item, t: seq<Item>)
    requires UniqueNames(t)
    requires forall y :: y in t ==> y.productName != x.productName
    ensures UniqueNames([x] + t)
  {
    var r := [x] + t;
    forall i, j | 0 <= i < j < |r|
      ensures r[i].productName != r[j].productName
    {
      assert r[j] == t[j - 1];
      if i == 0 {
        assert t[j - 1] in t;
      } else {
        assert r[i] == t[i - 1];
      }
    }
  }

  lemma {:induction false} RemoveNameUnique(s: seq<Item>, name: string)
    requires UniqueNames(s)
    ensures UniqueNames(RemoveName(s, name))
    decreases |s|
  {
    if s != [] {
      var tail := s[1..];
      assert s == [s[0]] + tail;
      FilterConcat([s[0]], tail, NameIsNot(name));
      UniqueSplit(s);
      RemoveNameUnique(tail, name);
      if s[0].productName != name {
        UniqueCons(s[0], RemoveName(tail, name));
      }
    }
  }

  /** A click keeps the list within its limit. */
  lemma ToggleBound(s: seq<Item>, item: Item, limit: nat)
    requires |s| <= limit
    ensures |Toggle(s, item, limit)| <= limit
  {
  }

  /** At the limit, a click on an absent item leaves the list as it was. */
  lemma ToggleAtLimit(s: seq<Item>, item: Item, limit: nat)
    requires !HasName(s, item.productName) && |s| >= limit
    ensures Toggle(s, item, limit) == s
  {
  }

  /**
   * A click on a chosen item removes every entry with its name, keeps the
   * others in order, and always succeeds: the list gets shorter whatever its
   * length and the limit.
   */
  lemma ToggleRemoves(s: seq<Item>, item: Item, limit: nat)
    requires HasName(s, item.productName)
    ensures var r := Toggle(s, item, limit);
      r == Filter(s, NameIsNot(item.productName)) && !HasName(r, item.productName) && |r| < |s|
  {
    RemoveNameShrinks(s, item.productName);
    NoEntryNamed(RemoveName(s, item.productName), item.productName);
  }

  /** Below the limit, a click on an absent item appends it after the existing entries. */
  lemma ToggleAppends(s: seq<Item>, item: Item, limit: nat)
    requires !HasName(s, item.productName) && |s| < limit
    ensures Toggle(s, item, limit) == s + [item]
  {
  }

  /** A click never introduces two entries with the same name. */
  lemma ToggleUnique(s: seq<Item>, item: Item, limit: nat)
    requires UniqueNames(s)
    ensures UniqueNames(Toggle(s, item, limit))
  {
    if HasName(s, item.productName) {
      RemoveNameUnique(s, item.productName);
    } else if |s| < limit {
      NotHasName(s, item.productName);
      var r := s + [item];
      forall i, j | 0 <= i < j < |r|
        ensures r[i].productName != r[j].productName
      {
        if j == |s| {
          assert r[i] in s;
        }
      }
    }
  }

  /** Adding an item and clicking it again restores the list. */
  lemma ToggleTwice(s: seq<Item>, item: Item, limit: nat)
    requires !HasName(s, item.productName) && |s| < limit
    ensures Toggle(Toggle(s, item, limit), item, limit) == s
  {
    var t := s + [item];
    assert t[|s|].productName == item.productName;
    FilterConcat(s, [item], NameIsNot(item.productName));
    NotHasName(s, item.productName);
    FilterAll(s, NameIsNot(item.productName));
    FilterNone([item], NameIsNot(item.productName));
  }

  /** The list after a run of clicks. */
  function ToggleAll(s: seq<Item>, clicks: seq<Item>, limit: nat): seq<Item>
    decreases |clicks|
  {
    if clicks == [] then s else ToggleAll(Toggle(s, clicks[0], limit), clicks[1..], limit)
  }

  /** No run of clicks pushes the list past its limit. */
  lemma {:induction false} ToggleAllBound(s: seq<Item>, clicks: seq<Item>, limit: nat)
    requires |s| <= limit
    ensures |ToggleAll(s, clicks, limit)| <= limit
    decreases |clicks|
  {
    if clicks != [] {
      ToggleBound(s, clicks[0], limit);
      ToggleAllBound(Toggle(s, clicks[0], limit), clicks[1..], limit);
    }
  }

  /** Clicking distinct, unchosen items within the limit selects exactly them, in click order. */
  lemma {:induction false} ToggleAllFills(s: seq<Item>, clicks: seq<Item>, limit: nat)
    requires UniqueNames(s + clicks) && |s| + |clicks| <= limit
    ensures ToggleAll(s, clicks, limit) == s + clicks
    decreases |clicks|
  {
    if clicks != [] {
      var c := clicks[0];
      var t := s + [c];
      assert s + clicks == t + clicks[1..];
      forall i | 0 <= i < |s|
        ensures s[i].productName != c.productName
      {
        assert (s + clicks)[i] == s[i] && (s + clicks)[|s|] == c;
      }
      assert Toggle(s, c, limit) == t;
      ToggleAllFills(t, clicks[1..], limit);
    }
  }

  /** Clicking the current bag clears the choice; any other bag replaces it. */
  lemma SelectSingleSpec(current: Option<Item>, item: Item)
    ensures current.Some? && current.value.productName == item.productName ==> SelectSingle(current, item) == None
    ensures !(current.Some? && current.value.productName == item.productName) ==> SelectSingle(current, item) == Some(item)
  {
  }

  /** Clicking a bag that is not the current one twice leaves no bag chosen. */
  lemma SelectSingleTwice(current: Option<Item>, item: Item)
    requires current.None? || current.value.productName != item.productName
    ensures SelectSingle(SelectSingle(current, item), item) == None
  {
  }

  /** The record `handleSubmit` assembles from the page state. */
  datatype Submission = Submission(
    name: string, email: string, address: string,
    includedItems: seq<Item>, selectedPick1: Option<Item>,
    selectedPick3: seq<Item>, selectedPick2: seq<Item>)

  /** The state one visit to the page holds in its `useState` hooks. */
  class Session {
    const inventory: seq<Item>
    var selectedPick1: Option<Item>
    var selectedPick3: seq<Item>
    var selectedPick2: seq<Item>
    var name: string
    var email: string
    var address: string

    /** The multi-pick lists stay within their limits and free of duplicate names. */
    ghost predicate Valid()
      reads this
    {
      |selectedPick3| <= Pick3Limit && UniqueNames(selectedPick3) &&
      |selectedPick2| <= Pick2Limit && UniqueNames(selectedPick2)
    }

    constructor (inventory: seq<Item>)
      ensures Valid() && this.inventory == inventory
      ensures selectedPick1 == None && selectedPick3 == [] && selectedPick2 == []
      ensures name == "" && email == "" && address == ""
    {
      this.inventory := inventory;
      selectedPick1, selectedPick3, selectedPick2 := None, [], [];
      name, email, address := "", "", "";
    }

    method HandleSelectPick1(item: Item)
      requires Valid()
      modifies this`selectedPick1
      ensures Valid()
      ensures old(selectedPick1).Some? && old(selectedPick1).value.productName == item.productName ==>
        selectedPick1 == None
      ensures !(old(selectedPick1).Some? && old(selectedPick1).value.productName == item.productName) ==>
        selectedPick1 == Some(item)
    {
      selectedPick1 := SelectSingle(selectedPick1, item);
    }

    method HandleTogglePick3(item: Item)
      requires Valid()
      modifies this`selectedPick3
      ensures Valid()
      ensures selectedPick3 == Toggle(old(selectedPick3), item, Pick3Limit)
    {
      ToggleBound(selectedPick3, item, Pick3Limit);
      ToggleUnique(selectedPick3, item, Pick3Limit);
      selectedPick3 := Toggle(selectedPick3, item, Pick3Limit);
    }

    method HandleTogglePick2(item: Item)
      requires Valid()
      modifies this`selectedPick2
      ensures Valid()
      ensures selectedPick2 == Toggle(old(selectedPick2), item, Pick2Limit)
    {
      ToggleBound(selectedPick2, item, Pick2Limit);
      ToggleUnique(selectedPick2, item, Pick2Limit);
      selectedPick2 := Toggle(selectedPick2, item, Pick2Limit);
    }

    method SetName(value: string)
      modifies this`name
      ensures name == value
    {
      name := value;
    }

    method SetEmail(value: string)
      modifies this`email
      ensures email == value
    {
      email := value;
    }

    method SetAddress(value: string)
      modifies this`address
      ensures address == value
    {
      address := value;
    }

    /** A patch is shown as selected exactly when clicking it would deselect it. */
    function IsPick3Selected(item: Item): (r: bool)
      reads this
      ensures r <==> |Toggle(selectedPick3, item, Pick3Limit)| < |selectedPick3|
    {
      if HasName(selectedPick3, item.productName) then
        RemoveNameShrinks(selectedPick3, item.productName); true
      else false
    }

    /** A patch is shown as selected exactly when clicking it would deselect it. */
    function IsPick2Selected(item: Item): (r: bool)
      reads this
      ensures r <==> |Toggle(selectedPick2, item, Pick2Limit)| < |selectedPick2|
    {
      if HasName(selectedPick2, item.productName) then
        RemoveNameShrinks(selectedPick2, item.productName); true
      else false
    }

    /**
     * The submit button is enabled exactly when a bag is chosen, both patch
     * lists are full and each contact field has a non-whitespace character.
     */
    function ReadyToSubmit(): (r: bool)
      reads this
      ensures r <==>
        selectedPick1.Some? && |selectedPick3| == Pick3Limit && |selectedPick2| == Pick2Limit &&
        HasContent(name) && HasContent(email) && HasContent(address)
    {
      TrimEmpty(name);
      TrimEmpty(email);
      TrimEmpty(address);
      selectedPick1.Some? && |selectedPick3| == Pick3Limit && |selectedPick2| == Pick2Limit &&
      Trim(name) != "" && Trim(email) != "" && Trim(address) != ""
    }

    /** The record `handleSubmit` shows: the current state plus the "Included" group. */
    function SubmissionRecord(): (r: Submission)
      reads this
      requires Valid()
      ensures r.includedItems == Partition(inventory).included
      ensures forall x :: x in r.includedItems <==> x in inventory && x.selectionOption == Included
      ensures r.selectedPick1 == selectedPick1 && r.selectedPick3 == selectedPick3 && r.selectedPick2 == selectedPick2
      ensures r.name == name && r.email == email && r.address == address
      ensures |r.selectedPick3| <= Pick3Limit && UniqueNames(r.selectedPick3)
      ensures |r.selectedPick2| <= Pick2Limit && UniqueNames(r.selectedPick2)
    {
      Submission(name, email, address, Partition(inventory).included,
                 selectedPick1, selectedPick3, selectedPick2)
    }
  }
}
