/**
 * `AssignMembersDialog`: choosing which members share one item. The
 * selection is a JavaScript `Set` of member ids, which keeps insertion order
 * and no duplicates; saving sends one equal-weight split per selected member.
 */
module AssignMembers {
  import opened Wrappers
  import opened Seqs
  import opened Store
  import SplitsService
  import Settlement
  import SettlementLemmas

  /** The item the dialog is opened for; `splits` is absent when the server sent no split array. */
  datatype DialogItem = DialogItem(id: string, price: real, totalPrice: real, splits: Option<seq<string>>)

  /** `new Set(ids)`: the ids in order of first occurrence, each once. */
  function Dedup(ids: seq<string>): (r: seq<string>)
    ensures NoDup(r)
    ensures forall x :: x in r <==> x in ids
    ensures |r| <= |ids|
  {
    if ids == [] then []
    else
      var init := Dedup(ids[..|ids| - 1]);
      assert ids == ids[..|ids| - 1] + [ids[|ids| - 1]];
      if ids[|ids| - 1] in init then init else init + [ids[|ids| - 1]]
  }

  /** The selection on opening: the stored splits when there is an array, even an empty one, else every member. */
  function InitialSelection(item: DialogItem, memberIds: seq<string>): (r: seq<string>)
    ensures NoDup(r)
    ensures item.splits.Some? ==> forall x :: x in r <==> x in item.splits.value
    ensures item.splits.None? ==> forall x :: x in r <==> x in memberIds
  {
    if item.splits.Some? then Dedup(item.splits.value) else Dedup(memberIds)
  }

  /** `toggleMember`: `delete` when present, `add` (at the end) when absent. */
  function Toggled(selected: seq<string>, id: string): (r: seq<string>)
    ensures forall x :: x != id ==> (x in r <==> x in selected)
    ensures id in r <==> id !in selected
    ensures NoDup(selected) ==> NoDup(r)
  {
    if id in selected then
      var kept := Filter(selected, (x: string) => x != id);
      assert NoDup(selected) ==> NoDup(kept) by {
        if NoDup(selected) {
          FilterIsSubsequence(selected, (x: string) => x != id);
          SubsequenceNoDup(kept, selected);
        }
      }
      kept
    else selected + [id]
  }

  /** A subsequence of a duplicate-free sequence is duplicate-free. */
  lemma {:induction false} SubsequenceNoDup(xs: seq<string>, s: seq<string>)
    requires Subsequence(xs, s) && NoDup(s)
    ensures NoDup(xs)
    decreases |s|
  {
    if xs != [] && s != [] {
      assert NoDup(s[1..]) by {
        forall i, j | 0 <= i < j < |s[1..]| ensures s[1..][i] != s[1..][j] {
          assert s[1..][i] == s[i + 1] && s[1..][j] == s[j + 1];
        }
      }
      if xs[0] == s[0] {
        SubsequenceNoDup(xs[1..], s[1..]);
        SubsequenceElems(xs[1..], s[1..]);
        assert s[0] !in s[1..] by {
          forall i | 0 <= i < |s[1..]| ensures s[1..][i] != s[0] {
            assert s[1..][i] == s[i + 1];
          }
        }
        forall i, j | 0 <= i < j < |xs| ensures xs[i] != xs[j] {
          if i == 0 {
            assert xs[j] == xs[1..][j - 1];
          } else {
            assert xs[i] == xs[1..][i - 1] && xs[j] == xs[1..][j - 1];
          }
        }
      } else {
        SubsequenceNoDup(xs, s[1..]);
      }
    }
  }

  /** Every element of a subsequence is an element of the sequence. */
  lemma {:induction false} SubsequenceElems(xs: seq<string>, s: seq<string>)
    requires Subsequence(xs, s)
    ensures forall x :: x in xs ==> x in s
    decreases |s|
  {
    if xs != [] && s != [] {
      if xs[0] == s[0] {
        SubsequenceElems(xs[1..], s[1..]);
        assert forall x :: x in xs ==> x == xs[0] || x in xs[1..];
      } else {
        SubsequenceElems(xs, s[1..]);
      }
    }
  }

  /**
   * Toggling the same id twice gives back the same set of ids, and the same
   * sequence when the id was not selected (a re-added id moves to the end).
   */
  lemma ToggleTwice(selected: seq<string>, id: string)
    ensures forall x :: x in Toggled(Toggled(selected, id), id) <==> x in selected
    ensures id !in selected ==> Toggled(Toggled(selected, id), id) == selected
  {
    if id !in selected {
      FilterAppend(selected, [id], (x: string) => x != id);
      FilterAll(selected, (x: string) => x != id);
      assert Filter([id], (x: string) => x != id) == [];
    }
  }

  /** The price shown per person, as written: the unit `price` over the selection size. */
  function PricePerPerson(item: DialogItem, size: nat): (p: real)
    ensures size == 0 ==> p == 0.0
    ensures size > 0 ==> p * size as real == item.price
  {
    if size == 0 then 0.0 else item.price / size as real
  }

  /** The price per person the settlement engine will charge: the item's `totalPrice` over the selection size. */
  function PricePerPersonCorrected(item: DialogItem, size: nat): (p: real)
    ensures size == 0 ==> p == 0.0
    ensures size > 0 ==> p * size as real == item.totalPrice
  {
    if size == 0 then 0.0 else item.totalPrice / size as real
  }

  /**
   * An item of price 100 bought twice (total 200) shared by two people: the
   * dialog shows 50 each, but each is charged 100.
   */
  lemma PreviewUsesUnitPrice()
    ensures var item := DialogItem("item", 100.0, 200.0, None);
            PricePerPerson(item, 2) == 50.0
            && PricePerPersonCorrected(item, 2) == 100.0
            && Settlement.Share(item.totalPrice, 1.0, 2.0) == 100.0
  {
  }

  /**
   * With equal weights of 1, no two splits crediting the same record, a
   * member's credit for the item is exactly the corrected preview.
   */
  lemma CorrectedPreviewIsCharged(t: Settlement.Totals, members: seq<Settlement.Member>, ownerId: string,
                                  item: Settlement.Item, i: int, dialogItem: DialogItem)
    requires dialogItem.totalPrice == item.totalPrice
    requires 0 <= i < |item.splits|
    requires forall j :: 0 <= j < |item.splits| ==> item.splits[j].weight == 1.0
    requires Settlement.Resolves(members, t, item.splits[i])
    requires forall j :: 0 <= j < |item.splits| && j != i ==>
               Settlement.TargetKey(members, item.splits[j]) != Settlement.TargetKey(members, item.splits[i])
    ensures var k := Settlement.TargetKey(members, item.splits[i]).value;
            Settlement.AllocateItem(t, members, ownerId, item).entries[k].baseAmount
            == t.entries[k].baseAmount + PricePerPersonCorrected(dialogItem, |item.splits|)
  {
    SettlementLemmas.EqualSplitShare(t, members, ownerId, item, i);
  }

  /** `handleSave`: one split per selected id, in selection order, each of weight 1. */
  function SaveRequest(itemId: string, selected: seq<string>): (dto: SplitsService.AssignSplitDto)
    ensures dto.itemId == itemId && |dto.splits| == |selected|
    ensures SplitsService.MemberIds(dto.splits) == selected
    ensures forall i :: 0 <= i < |dto.splits| ==> dto.splits[i].weight == Some(1.0) && dto.splits[i].fixedAmount.None?
  {
    SplitsService.AssignSplitDto(itemId,
      seq(|selected|, i requires 0 <= i < |selected| => SplitsService.SplitInput(selected[i], Some(1.0), None)))
  }

  /**
   * A selection of members of the item's bill passes the server's membership
   * check: the lookup finds exactly one row per requested split.
   */
  lemma SaveAccepted(members: seq<MemberRow>, billId: string, itemId: string, selected: seq<string>)
    requires Pairwise(members, DistinctMembers)
    requires NoDup(selected)
    requires forall i :: 0 <= i < |selected| ==> SplitsService.IsMemberOf(members, billId, selected[i])
    ensures var ids := SplitsService.MemberIds(SaveRequest(itemId, selected).splits);
            |SplitsService.ValidMembers(members, billId, ids)| == |ids|
  {
    SplitsService.ValidCountExact(members, billId, selected);
  }

  /** The dialog's `selectedIds` state. */
  class MemberSelection {
    var selected: seq<string>

    ghost predicate Valid()
      reads this
    {
      NoDup(selected)
    }

    /** `useState(new Set())`. */
    constructor ()
      ensures Valid() && selected == []
    {
      selected := [];
    }

    /** The effect that runs when the dialog opens. */
    method Open(item: DialogItem, memberIds: seq<string>)
      modifies this
      ensures Valid() && selected == InitialSelection(item, memberIds)
    {
      if item.splits.Some? {
        selected := Dedup(item.splits.value);
      } else {
        selected := Dedup(memberIds);
      }
    }

    /** `toggleMember`: only `id` changes membership. */
    method Toggle(id: string)
      requires Valid()
      modifies this
      ensures Valid() && selected == Toggled(old(selected), id)
    {
      var newSet := selected;
      if id in newSet {
        newSet := Filter(newSet, (x: string) => x != id);
      } else {
        newSet := newSet + [id];
      }
      assert newSet == Toggled(selected, id);
      selected := newSet;
    }

    /** `selectAll`: every member id. */
    method SelectAll(memberIds: seq<string>)
      modifies this
      ensures Valid() && selected == Dedup(memberIds)
    {
      selected := Dedup(memberIds);
    }

    /** `clearAll`: nobody. */
    method ClearAll()
      modifies this
      ensures Valid() && selected == []
    {
      selected := [];
    }
  }
}
