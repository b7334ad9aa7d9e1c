/**
 * What the settlement engine guarantees: one record per member before
 * allocation, conservation of item totals, where unassigned items go, the fee
 * formulas, rounding up to the cent, and a grand total that covers the bill.
 */
module SettlementLemmas {
  import opened Wrappers
  import opened Seqs
  import opened Settlement

  // ---------------------------------------------------------------------------
  // Before allocation
  // ---------------------------------------------------------------------------

  /** The last member with a key is still the last one in a prefix that contains it. */
  lemma LastWithKeyPrefix(members: seq<Member>, i: int, n: int)
    requires 0 <= i < n <= |members| && LastWithKey(members, i)
    ensures LastWithKey(members[..n], i)
  {
    forall j | i < j < n ensures KeyOf(members[..n][j]) != KeyOf(members[..n][i]) {
      assert members[..n][j] == members[j];
    }
  }

  /** The record under a key is the fresh record of the last member with that key. */
  lemma {:induction false} InitTotalsLast(members: seq<Member>, i: int)
    requires 0 <= i < |members| && LastWithKey(members, i)
    ensures KeyOf(members[i]) in InitTotals(members).entries
    ensures InitTotals(members).entries[KeyOf(members[i])] == Fresh(members[i])
  {
    var n := |members| - 1;
    if i < n {
      LastWithKeyPrefix(members, i, n);
      InitTotalsLast(members[..n], i);
      assert members[..n][i] == members[i];
    }
  }

  /** Every member's key has a record. */
  lemma {:induction false} InitTotalsHasKey(members: seq<Member>, i: int)
    requires 0 <= i < |members|
    ensures KeyOf(members[i]) in InitTotals(members).entries
  {
    var n := |members| - 1;
    if i < n {
      assert members[..n][i] == members[i];
      InitTotalsHasKey(members[..n], i);
    }
  }

  /** Only members' keys have records. */
  lemma {:induction false} InitTotalsOnlyKeys(members: seq<Member>, k: string)
    requires k in InitTotals(members).entries
    ensures exists i :: 0 <= i < |members| && KeyOf(members[i]) == k
  {
    var n := |members| - 1;
    if k != KeyOf(members[n]) {
      InitTotalsOnlyKeys(members[..n], k);
      var i :| 0 <= i < n && KeyOf(members[..n][i]) == k;
      assert members[..n][i] == members[i];
    }
  }

  /** One step of `InitTotals`, unfolded. */
  lemma InitTotalsStep(members: seq<Member>)
    requires members != []
    ensures var n := |members| - 1;
            var t0 := InitTotals(members[..n]);
            var k := KeyOf(members[n]);
            InitTotals(members) == Totals(if k in t0.entries then t0.order else t0.order + [k], t0.entries[k := Fresh(members[n])])
  {
  }

  /** The settlement keys of the members, in member order. */
  function KeysOf(members: seq<Member>): (ks: seq<string>)
    ensures |ks| == |members|
    ensures forall i :: 0 <= i < |members| ==> ks[i] == KeyOf(members[i])
  {
    seq(|members|, i requires 0 <= i < |members| => KeyOf(members[i]))
  }

  /** When the keys are unique, the records are listed in member order. */
  lemma {:induction false} InitTotalsUniqueOrder(members: seq<Member>)
    requires NoDup(KeysOf(members))
    ensures InitTotals(members).order == KeysOf(members)
  {
    if members != [] {
      var n := |members| - 1;
      var ks := KeysOf(members);
      assert KeysOf(members[..n]) == ks[..n];
      NoDupPrefix(ks, n);
      InitTotalsUniqueOrder(members[..n]);
      var t0 := InitTotals(members[..n]);
      assert ks[n] !in t0.entries by {
        assert ks[n] !in t0.order;
      }
      InitTotalsStep(members);
      assert ks == ks[..n] + [ks[n]];
    }
  }

  /** With unique keys every member is the last one with its key. */
  lemma UniqueKeysLast(members: seq<Member>, i: int)
    requires NoDup(KeysOf(members)) && 0 <= i < |members|
    ensures LastWithKey(members, i)
  {
    var ks := KeysOf(members);
    forall j | i < j < |members| ensures KeyOf(members[j]) != KeyOf(members[i]) {
      assert ks[i] != ks[j];
    }
  }

  /** When the keys are unique (as the engine assumes), every member has its own fresh record. */
  lemma InitTotalsUniqueEntries(members: seq<Member>, i: int)
    requires NoDup(KeysOf(members)) && 0 <= i < |members|
    ensures KeyOf(members[i]) in InitTotals(members).entries
    ensures InitTotals(members).entries[KeyOf(members[i])] == Fresh(members[i])
  {
    UniqueKeysLast(members, i);
    InitTotalsLast(members, i);
  }

  // ---------------------------------------------------------------------------
  // Sums of base amounts
  // ---------------------------------------------------------------------------

  /** The sum of the base amounts of the records listed in `order`. */
  function SumBase(order: seq<string>, entries: map<string, MemberTotal>): real
    requires forall k :: k in order ==> k in entries
  {
    if order == [] then 0.0
    else SumBase(order[..|order| - 1], entries) + entries[order[|order| - 1]].baseAmount
  }

  /** The sum of all base amounts of an accumulator. */
  function TotalBase(t: Totals): real
    requires Valid(t)
  {
    SumBase(t.order, t.entries)
  }

  /** Replacing the record of a key that is not listed leaves the sum alone. */
  lemma {:induction false} SumBaseOther(order: seq<string>, entries: map<string, MemberTotal>, k: string, e: MemberTotal)
    requires forall x :: x in order ==> x in entries
    requires k !in order
    ensures SumBase(order, entries[k := e]) == SumBase(order, entries)
  {
    if order != [] {
      var n := |order| - 1;
      assert forall x :: x in order[..n] ==> x in order;
      SumBaseOther(order[..n], entries, k, e);
    }
  }

  /** Replacing the record of a key listed once changes the sum by the change of its base. */
  lemma {:induction false} SumBaseUpdate(order: seq<string>, entries: map<string, MemberTotal>, k: string, e: MemberTotal)
    requires forall x :: x in order ==> x in entries
    requires NoDup(order) && k in order
    ensures SumBase(order, entries[k := e]) == SumBase(order, entries) - entries[k].baseAmount + e.baseAmount
  {
    var n := |order| - 1;
    assert forall x :: x in order[..n] ==> x in order;
    NoDupPrefix(order, n);
    if order[n] == k {
      SumBaseOther(order[..n], entries, k, e);
    } else {
      assert k in order[..n] by {
        var j :| 0 <= j < |order| && order[j] == k;
        assert j < n && order[..n][j] == k;
      }
      SumBaseUpdate(order[..n], entries, k, e);
    }
  }

  /** A fresh accumulator sums to zero. */
  lemma {:induction false} SumBasePristine(order: seq<string>, entries: map<string, MemberTotal>)
    requires forall x :: x in order ==> x in entries && Pristine(entries[x])
    ensures SumBase(order, entries) == 0.0
  {
    if order != [] {
      var n := |order| - 1;
      assert forall x :: x in order[..n] ==> x in order;
      SumBasePristine(order[..n], entries);
    }
  }

  // ---------------------------------------------------------------------------
  // Pass 1: conservation
  // ---------------------------------------------------------------------------

  /** Every split of the list is credited to some record. */
  ghost predicate AllResolve(members: seq<Member>, t: Totals, splits: seq<Split>) {
    forall i :: 0 <= i < |splits| ==> Resolves(members, t, splits[i])
  }

  /** Whether a split resolves depends only on which keys have records. */
  lemma ResolvesByKeys(members: seq<Member>, t: Totals, t': Totals, s: Split)
    requires t'.entries.Keys == t.entries.Keys
    ensures Resolves(members, t', s) == Resolves(members, t, s)
  {
  }

  /** One step of `AllocateSplits`, unfolded. */
  lemma AllocateSplitsStep(t: Totals, members: seq<Member>, item: Item, w: real, splits: seq<Split>)
    requires w != 0.0 && splits != []
    ensures AllocateSplits(t, members, item, w, splits)
            == AllocateSplit(AllocateSplits(t, members, item, w, splits[..|splits| - 1]), members, item, w, splits[|splits| - 1])
  {
  }

  /** Every split of a prefix resolves when every split does. */
  lemma AllResolvePrefix(members: seq<Member>, t: Totals, splits: seq<Split>, n: int)
    requires 0 <= n <= |splits| && AllResolve(members, t, splits)
    ensures AllResolve(members, t, splits[..n])
  {
    forall i | 0 <= i < n ensures Resolves(members, t, splits[..n][i]) {
      assert splits[..n][i] == splits[i];
    }
  }

  /** Crediting one resolving split adds exactly its share to the total. */
  lemma SplitAddsShare(t: Totals, members: seq<Member>, item: Item, w: real, s: Split)
    requires Valid(t) && w != 0.0 && Resolves(members, t, s)
    ensures Valid(AllocateSplit(t, members, item, w, s))
    ensures TotalBase(AllocateSplit(t, members, item, w, s)) == TotalBase(t) + Share(item.totalPrice, s.weight, w)
  {
    var k := TargetKey(members, s).value;
    var share := Share(item.totalPrice, s.weight, w);
    SumBaseUpdate(t.order, t.entries, k, Credit(t.entries[k], share, LineItem(item.name, share, Some(s.weight))));
  }

  /** The shares of `total` for the weights of `splits`, summed. */
  function SumShares(total: real, w: real, splits: seq<Split>): real
    requires w != 0.0
  {
    if splits == [] then 0.0
    else SumShares(total, w, splits[..|splits| - 1]) + Share(total, splits[|splits| - 1].weight, w)
  }

  /** Summing the shares split by split is sharing the summed weight. */
  lemma {:induction false} SumSharesIsShare(total: real, w: real, splits: seq<Split>)
    requires w != 0.0
    ensures SumShares(total, w, splits) == Share(total, TotalWeight(splits), w)
  {
    if splits == [] {
      assert Share(total, 0.0, w) == 0.0;
    } else {
      var n := |splits| - 1;
      SumSharesIsShare(total, w, splits[..n]);
      ShareAdd(total, TotalWeight(splits[..n]), splits[n].weight, w);
    }
  }

  /** When every split resolves, the records together receive every split's share. */
  lemma {:induction false} SplitsConserve(t: Totals, members: seq<Member>, item: Item, w: real, splits: seq<Split>)
    requires Valid(t) && w != 0.0 && AllResolve(members, t, splits)
    ensures Valid(AllocateSplits(t, members, item, w, splits))
    ensures TotalBase(AllocateSplits(t, members, item, w, splits)) == TotalBase(t) + SumShares(item.totalPrice, w, splits)
  {
    if splits != [] {
      var n := |splits| - 1;
      AllResolvePrefix(members, t, splits, n);
      SplitsConserve(t, members, item, w, splits[..n]);
      var t' := AllocateSplits(t, members, item, w, splits[..n]);
      ResolvesByKeys(members, t, t', splits[n]);
      SplitAddsShare(t', members, item, w, splits[n]);
      AllocateSplitsStep(t, members, item, w, splits);
    }
  }

  /** The whole weight's share is the whole total. */
  lemma ShareWhole(total: real, w: real)
    requires w != 0.0
    ensures Share(total, w, w) == total
  {
  }

  /** Shares of one total add up by weight. */
  lemma ShareAdd(total: real, a: real, b: real, w: real)
    requires w != 0.0
    ensures Share(total, a, w) + Share(total, b, w) == Share(total, a + b, w)
  {
    assert total * a / w + total * b / w == (total * a + total * b) / w;
  }

  /**
   * An item with positive total weight whose splits all resolve is shared out
   * exactly: the base amounts grow by `totalPrice`, no more and no less.
   */
  lemma ItemSharedExactly(t: Totals, members: seq<Member>, ownerId: string, item: Item)
    requires Valid(t) && TotalWeight(item.splits) > 0.0 && AllResolve(members, t, item.splits)
    ensures TotalBase(AllocateItem(t, members, ownerId, item)) == TotalBase(t) + item.totalPrice
  {
    var w := TotalWeight(item.splits);
    SplitsConserve(t, members, item, w, item.splits);
    SumSharesIsShare(item.totalPrice, w, item.splits);
    ShareWhole(item.totalPrice, w);
  }

  /** The member ids are non-empty (they are database UUIDs), so every settlement key is truthy. */
  ghost predicate MemberIdsNonEmpty(members: seq<Member>) {
    forall i :: 0 <= i < |members| ==> members[i].id != ""
  }

  /** Every split of the item names one of the members. */
  ghost predicate NamesMembers(members: seq<Member>, item: Item) {
    forall j :: 0 <= j < |item.splits| ==> exists m :: m in members && m.id == item.splits[j].memberId
  }

  /** Every split of every item names a member of the bill. */
  ghost predicate SplitsNameMembers(bill: Bill) {
    forall i :: 0 <= i < |bill.items| ==> NamesMembers(bill.members, bill.items[i])
  }

  /** The bill owner has a record: some member's key is the owner's user id. */
  ghost predicate OwnerEnrolled(bill: Bill) {
    exists i :: 0 <= i < |bill.members| && KeyOf(bill.members[i]) == bill.ownerId
  }

  /** The owner is enrolled exactly when pass 1 starts with a record under the owner's id. */
  lemma OwnerRecord(bill: Bill)
    ensures OwnerEnrolled(bill) <==> bill.ownerId in InitTotals(bill.members).entries
  {
    if OwnerEnrolled(bill) {
      var i :| 0 <= i < |bill.members| && KeyOf(bill.members[i]) == bill.ownerId;
      InitTotalsHasKey(bill.members, i);
    }
    if bill.ownerId in InitTotals(bill.members).entries {
      InitTotalsOnlyKeys(bill.members, bill.ownerId);
    }
  }

  /** The total price of the items with positive total weight. */
  function AssignedTotal(items: seq<Item>): real {
    if items == [] then 0.0
    else
      var n := |items| - 1;
      AssignedTotal(items[..n]) + (if TotalWeight(items[n].splits) > 0.0 then items[n].totalPrice else 0.0)
  }

  /** The total price of the items nobody is assigned to (total weight not positive). */
  function UnassignedTotal(items: seq<Item>): real {
    if items == [] then 0.0
    else
      var n := |items| - 1;
      UnassignedTotal(items[..n]) + (if TotalWeight(items[n].splits) > 0.0 then 0.0 else items[n].totalPrice)
  }

  /** The total price of all items. */
  function ItemsTotal(items: seq<Item>): (r: real)
    ensures r == AssignedTotal(items) + UnassignedTotal(items)
  {
    if items == [] then 0.0 else ItemsTotal(items[..|items| - 1]) + items[|items| - 1].totalPrice
  }

  /** A split that names a member with a non-empty id resolves against the initial records. */
  lemma SplitResolves(members: seq<Member>, t: Totals, s: Split)
    requires MemberIdsNonEmpty(members)
    requires t.entries.Keys == InitTotals(members).entries.Keys
    requires exists m :: m in members && m.id == s.memberId
    ensures Resolves(members, t, s)
  {
    var m := FindMember(members, s.memberId).value;
    var i :| 0 <= i < |members| && members[i] == m;
    InitTotalsHasKey(members, i);
  }

  /**
   * One item of pass 1: when its splits name members, it adds its whole total
   * to the records, unless nobody is assigned and the owner has no record, in
   * which case it adds nothing.
   */
  lemma ItemConserves(members: seq<Member>, ownerId: string, t: Totals, item: Item)
    requires Valid(t) && MemberIdsNonEmpty(members) && NamesMembers(members, item)
    requires t.entries.Keys == InitTotals(members).entries.Keys
    ensures Valid(AllocateItem(t, members, ownerId, item))
    ensures TotalBase(AllocateItem(t, members, ownerId, item))
            == TotalBase(t) + (if TotalWeight(item.splits) > 0.0 || ownerId in t.entries then item.totalPrice else 0.0)
  {
    var w := TotalWeight(item.splits);
    if w > 0.0 {
      forall j | 0 <= j < |item.splits| ensures Resolves(members, t, item.splits[j]) {
        SplitResolves(members, t, item.splits[j]);
      }
      SplitsConserve(t, members, item, w, item.splits);
      SumSharesIsShare(item.totalPrice, w, item.splits);
      ShareWhole(item.totalPrice, w);
    } else if ownerId in t.entries {
      var line := LineItem(UnassignedName(item.name), item.totalPrice, None);
      SumBaseUpdate(t.order, t.entries, ownerId, Credit(t.entries[ownerId], item.totalPrice, line));
    }
  }

  /** One step of `AllocateItems`, unfolded. */
  lemma AllocateItemsStep(t: Totals, members: seq<Member>, ownerId: string, items: seq<Item>)
    requires items != []
    ensures AllocateItems(t, members, ownerId, items)
            == AllocateItem(AllocateItems(t, members, ownerId, items[..|items| - 1]), members, ownerId, items[|items| - 1])
  {
  }

  /**
   * Conservation for a whole bill: after pass 1 the base amounts add up to the
   * assigned items' total, plus the unassigned items' total when the owner has
   * a record. Without an owner record the unassigned items are dropped.
   */
  lemma {:induction false} PassOneConserves(bill: Bill, n: nat)
    requires n <= |bill.items|
    requires MemberIdsNonEmpty(bill.members) && SplitsNameMembers(bill)
    ensures Valid(AllocateItems(InitTotals(bill.members), bill.members, bill.ownerId, bill.items[..n]))
    ensures TotalBase(AllocateItems(InitTotals(bill.members), bill.members, bill.ownerId, bill.items[..n]))
            == AssignedTotal(bill.items[..n]) + (if OwnerEnrolled(bill) then UnassignedTotal(bill.items[..n]) else 0.0)
  {
    var t0 := InitTotals(bill.members);
    if n == 0 {
      SumBasePristine(t0.order, t0.entries);
    } else {
      var items := bill.items[..n];
      assert items[..n - 1] == bill.items[..n - 1];
      assert items[n - 1] == bill.items[n - 1];
      PassOneConserves(bill, n - 1);
      var t := AllocateItems(t0, bill.members, bill.ownerId, items[..n - 1]);
      AllocateItemsStep(t0, bill.members, bill.ownerId, items);
      ItemConserves(bill.members, bill.ownerId, t, bill.items[n - 1]);
      OwnerRecord(bill);
    }
  }

  /** With every split naming a member and the owner enrolled, pass 1 shares out exactly the items' total. */
  lemma BillConserves(bill: Bill)
    requires MemberIdsNonEmpty(bill.members) && SplitsNameMembers(bill) && OwnerEnrolled(bill)
    ensures TotalBase(AfterPass1(bill)) == ItemsTotal(bill.items)
  {
    PassOneConserves(bill, |bill.items|);
    assert bill.items[..|bill.items|] == bill.items;
  }

  // ---------------------------------------------------------------------------
  // Pass 1: where an item's money goes
  // ---------------------------------------------------------------------------

  /** The weight of the splits of `splits` credited to key `k`. */
  function WeightTo(members: seq<Member>, t: Totals, splits: seq<Split>, k: string): real {
    if splits == [] then 0.0
    else
      var n := |splits| - 1;
      var s := splits[n];
      WeightTo(members, t, splits[..n], k) + (if Resolves(members, t, s) && TargetKey(members, s).value == k then s.weight else 0.0)
  }

  /**
   * Each record receives `totalPrice * W_k / w`, `W_k` being the weight of the
   * splits credited to it; a split that does not resolve credits nobody, and a
   * record no split names is unchanged.
   */
  lemma {:induction false} SplitsCreditByWeight(t: Totals, members: seq<Member>, item: Item, w: real, splits: seq<Split>, k: string)
    requires w != 0.0 && k in t.entries
    ensures AllocateSplits(t, members, item, w, splits).entries[k].baseAmount
            == t.entries[k].baseAmount + Share(item.totalPrice, WeightTo(members, t, splits, k), w)
    ensures (forall j :: 0 <= j < |splits| ==> TargetKey(members, splits[j]) != Some(k))
            ==> AllocateSplits(t, members, item, w, splits).entries[k] == t.entries[k]
  {
    if splits != [] {
      var n := |splits| - 1;
      SplitsCreditByWeight(t, members, item, w, splits[..n], k);
      var t' := AllocateSplits(t, members, item, w, splits[..n]);
      var s := splits[n];
      ResolvesByKeys(members, t, t', s);
      AllocateSplitsStep(t, members, item, w, splits);
      var T := item.totalPrice;
      if Resolves(members, t, s) && TargetKey(members, s).value == k {
        ShareAdd(T, WeightTo(members, t, splits[..n], k), s.weight, w);
      }
    }
  }

  /** The weight credited to `k` when exactly one split, the `i`-th, resolves to it. */
  lemma {:induction false} WeightToSingle(members: seq<Member>, t: Totals, splits: seq<Split>, k: string, i: int)
    requires 0 <= i < |splits|
    requires Resolves(members, t, splits[i]) && TargetKey(members, splits[i]).value == k
    requires forall j :: 0 <= j < |splits| && j != i ==> TargetKey(members, splits[j]) != Some(k)
    ensures WeightTo(members, t, splits, k) == splits[i].weight
  {
    var n := |splits| - 1;
    if i < n {
      WeightToSingle(members, t, splits[..n], k, i);
    } else {
      WeightToNone(members, t, splits[..n], k);
    }
  }

  /** No split resolving to `k` means no weight for `k`. */
  lemma {:induction false} WeightToNone(members: seq<Member>, t: Totals, splits: seq<Split>, k: string)
    requires forall j :: 0 <= j < |splits| ==> TargetKey(members, splits[j]) != Some(k)
    ensures WeightTo(members, t, splits, k) == 0.0
  {
    if splits != [] {
      WeightToNone(members, t, splits[..|splits| - 1], k);
    }
  }

  /** The weights of splits that all weigh 1 add up to their number. */
  lemma {:induction false} UnitWeights(splits: seq<Split>)
    requires forall j :: 0 <= j < |splits| ==> splits[j].weight == 1.0
    ensures TotalWeight(splits) == |splits| as real
  {
    if splits != [] {
      UnitWeights(splits[..|splits| - 1]);
    }
  }

  /**
   * An equal split: `n` splits of weight 1 naming distinct records give each of
   * those records `totalPrice / n`.
   */
  lemma EqualSplitShare(t: Totals, members: seq<Member>, ownerId: string, item: Item, i: int)
    requires 0 <= i < |item.splits|
    requires forall j :: 0 <= j < |item.splits| ==> item.splits[j].weight == 1.0
    requires Resolves(members, t, item.splits[i])
    requires forall j :: 0 <= j < |item.splits| && j != i ==> TargetKey(members, item.splits[j]) != TargetKey(members, item.splits[i])
    ensures var k := TargetKey(members, item.splits[i]).value;
            AllocateItem(t, members, ownerId, item).entries[k].baseAmount
            == t.entries[k].baseAmount + item.totalPrice / |item.splits| as real
  {
    var k := TargetKey(members, item.splits[i]).value;
    UnitWeights(item.splits);
    var w := TotalWeight(item.splits);
    WeightToSingle(members, t, item.splits, k, i);
    SplitsCreditByWeight(t, members, item, w, item.splits, k);
  }

  /** Weights that are all zero, or no splits at all, add up to zero. */
  lemma {:induction false} ZeroWeights(splits: seq<Split>)
    requires forall j :: 0 <= j < |splits| ==> splits[j].weight == 0.0
    ensures TotalWeight(splits) == 0.0
  {
    if splits != [] {
      ZeroWeights(splits[..|splits| - 1]);
    }
  }

  /**
   * An item with no splits, or only zero-weight splits, goes whole to the
   * record keyed by the owner's user id, labelled "(Unassigned)"; every other
   * record stays as it was. Without an owner record nothing changes.
   */
  lemma UnassignedGoesToOwner(t: Totals, members: seq<Member>, ownerId: string, item: Item)
    requires forall j :: 0 <= j < |item.splits| ==> item.splits[j].weight == 0.0
    ensures var r := AllocateItem(t, members, ownerId, item);
            && (ownerId in t.entries ==>
                  && r.entries[ownerId].baseAmount == t.entries[ownerId].baseAmount + item.totalPrice
                  && r.entries[ownerId].items == t.entries[ownerId].items + [LineItem(item.name + " (Unassigned)", item.totalPrice, None)])
            && (forall k :: k in t.entries && k != ownerId ==> r.entries[k] == t.entries[k])
            && (ownerId !in t.entries ==> r == t)
  {
    ZeroWeights(item.splits);
  }

  /** Removing a split that resolves nowhere does not change the allocation. */
  lemma {:induction false} UnresolvedSplitIsInert(t: Totals, members: seq<Member>, item: Item, w: real,
                                                  before: seq<Split>, s: Split, after: seq<Split>)
    requires w != 0.0 && !Resolves(members, t, s)
    ensures AllocateSplits(t, members, item, w, before + [s] + after) == AllocateSplits(t, members, item, w, before + after)
  {
    if after == [] {
      assert (before + [s] + after)[..|before|] == before;
      assert before + after == before;
      var t' := AllocateSplits(t, members, item, w, before);
      assert !Resolves(members, t', s);
    } else {
      var n := |after| - 1;
      assert (before + [s] + after)[..|before| + 1 + n] == before + [s] + after[..n];
      assert (before + after)[..|before| + n] == before + after[..n];
      UnresolvedSplitIsInert(t, members, item, w, before, s, after[..n]);
    }
  }

  // ---------------------------------------------------------------------------
  // Pass 2: fees and rounding
  // ---------------------------------------------------------------------------

  /** What the fees multiply a base amount by. */
  function FeeFactor(bill: Bill): real {
    (if ScApplies(bill) then 1.0 + bill.serviceChargeRate / 100.0 else 1.0)
    * (if VatApplies(bill) then 1.0 + bill.vatRate / 100.0 else 1.0)
  }

  /** Service charge then VAT on the inflated amount is the base times both factors. */
  lemma RunningTotalIsScaled(bill: Bill, base: real)
    ensures RunningTotal(bill, base) == base * FeeFactor(bill)
  {
    var s := bill.serviceChargeRate / 100.0;
    var v := bill.vatRate / 100.0;
    var afterSc := if ScApplies(bill) then base + Percent(base, bill.serviceChargeRate) else base;
    assert afterSc == base * (if ScApplies(bill) then 1.0 + s else 1.0);
    if VatApplies(bill) {
      assert afterSc + Percent(afterSc, bill.vatRate) == afterSc * (1.0 + v);
    }
  }

  /**
   * The fee formulas of a record whose fees are still unset (as after pass 1):
   * service charge on the base, VAT on base plus service charge, each 0 when it
   * does not apply, and the net amount the total rounded up to the cent.
   */
  lemma FeesOfRecord(bill: Bill, e: MemberTotal)
    requires FeesUnset(e)
    ensures var r := WithFees(bill, e);
            && r.baseAmount == e.baseAmount && r.items == e.items
            && r.memberId == e.memberId && r.userId == e.userId && r.name == e.name
            && r.scAmount == (if ScApplies(bill) then Percent(e.baseAmount, bill.serviceChargeRate) else 0.0)
            && r.vatAmount == (if VatApplies(bill) then Percent(e.baseAmount + r.scAmount, bill.vatRate) else 0.0)
            && r.baseAmount + r.scAmount + r.vatAmount == RunningTotal(bill, e.baseAmount)
            && r.netAmount == CeilCents(r.baseAmount + r.scAmount + r.vatAmount)
  {
  }

  /** The fee formulas and the rounding of one line of the summary, `m`. */
  ghost predicate FeeLine(bill: Bill, m: MemberTotal) {
    && m.scAmount == (if ScApplies(bill) then Percent(m.baseAmount, bill.serviceChargeRate) else 0.0)
    && m.vatAmount == (if VatApplies(bill) then Percent(m.baseAmount + m.scAmount, bill.vatRate) else 0.0)
    && m.baseAmount + m.scAmount + m.vatAmount == m.baseAmount * FeeFactor(bill)
    && m.baseAmount + m.scAmount + m.vatAmount <= m.netAmount < m.baseAmount + m.scAmount + m.vatAmount + 0.01
  }

  /** Adding fees to a record whose fees are unset yields a line obeying the fee formulas. */
  lemma WithFeesLine(bill: Bill, e: MemberTotal)
    requires FeesUnset(e)
    ensures FeeLine(bill, WithFees(bill, e))
  {
    FeesOfRecord(bill, e);
    RunningTotalIsScaled(bill, e.baseAmount);
  }

  /** Every member line of the summary obeys the fee formulas and is rounded up, never down. */
  lemma SummaryLine(bill: Bill, i: int)
    requires 0 <= i < |SummaryOf(bill).members|
    ensures FeeLine(bill, SummaryOf(bill).members[i])
  {
    var t := AfterPass1(bill);
    var e := t.entries[t.order[i]];
    assert SummaryOf(bill).members[i] == WithFees(bill, e);
    WithFeesLine(bill, e);
  }

  /** `CeilCents` is the least whole number of cents at or above its argument. */
  lemma CeilCentsLeast(x: real, c: int)
    requires x <= c as real / 100.0
    ensures CeilCents(x) <= c as real / 100.0
  {
    var y := -(x * 100.0);
    assert x * 100.0 <= c as real;
    assert -c <= y.Floor;
    assert CeilCents(x) == (-(y.Floor)) as real / 100.0;
  }

  /** An amount already exact to the cent is not changed by rounding. */
  lemma CeilCentsExact(c: int)
    ensures CeilCents(c as real / 100.0) == c as real / 100.0
  {
    CeilCentsLeast(c as real / 100.0, c);
  }

  /** One step of `ApplyFees`, unfolded. */
  lemma ApplyFeesStep(bill: Bill, entries: map<string, MemberTotal>, order: seq<string>)
    requires forall k :: k in order ==> k in entries
    requires order != []
    ensures ApplyFees(bill, entries, order)
            == ApplyFees(bill, entries, order[..|order| - 1]) + [WithFees(bill, entries[order[|order| - 1]])]
  {
  }

  /** The sum of the base amounts of summary lines. */
  function LinesBase(ms: seq<MemberTotal>): real {
    if ms == [] then 0.0 else LinesBase(ms[..|ms| - 1]) + ms[|ms| - 1].baseAmount
  }

  /** What a summary line comes to before rounding: base, service charge and VAT. */
  function Gross(m: MemberTotal): real {
    m.baseAmount + m.scAmount + m.vatAmount
  }

  /** The sum of the unrounded totals of summary lines. */
  function LinesGross(ms: seq<MemberTotal>): real {
    if ms == [] then 0.0 else LinesGross(ms[..|ms| - 1]) + Gross(ms[|ms| - 1])
  }

  /** The fees are linear: charging two amounts together is charging them apart. */
  lemma RunningTotalAdd(bill: Bill, a: real, b: real)
    ensures RunningTotal(bill, a + b) == RunningTotal(bill, a) + RunningTotal(bill, b)
  {
    assert Percent(a + b, bill.serviceChargeRate) == Percent(a, bill.serviceChargeRate) + Percent(b, bill.serviceChargeRate);
    var sa := if ScApplies(bill) then a + Percent(a, bill.serviceChargeRate) else a;
    var sb := if ScApplies(bill) then b + Percent(b, bill.serviceChargeRate) else b;
    assert Percent(sa + sb, bill.vatRate) == Percent(sa, bill.vatRate) + Percent(sb, bill.vatRate);
  }

  /** The fees of nothing are nothing. */
  lemma RunningTotalZero(bill: Bill)
    ensures RunningTotal(bill, 0.0) == 0.0
  {
  }

  /** The fees charged on each record separately, summed over `order`. */
  function SumRunning(bill: Bill, order: seq<string>, entries: map<string, MemberTotal>): real
    requires forall k :: k in order ==> k in entries
  {
    if order == [] then 0.0
    else SumRunning(bill, order[..|order| - 1], entries) + RunningTotal(bill, entries[order[|order| - 1]].baseAmount)
  }

  /** Charging the records separately is charging their base total. */
  lemma {:induction false} SumRunningIsRunningTotal(bill: Bill, order: seq<string>, entries: map<string, MemberTotal>)
    requires forall k :: k in order ==> k in entries
    ensures SumRunning(bill, order, entries) == RunningTotal(bill, SumBase(order, entries))
  {
    if order == [] {
      RunningTotalZero(bill);
    } else {
      var n := |order| - 1;
      assert forall x :: x in order[..n] ==> x in order;
      SumRunningIsRunningTotal(bill, order[..n], entries);
      RunningTotalAdd(bill, SumBase(order[..n], entries), entries[order[n]].baseAmount);
    }
  }

  /** The unrounded totals of the lines are the fees charged on each record. */
  lemma {:induction false} GrossOfFees(bill: Bill, entries: map<string, MemberTotal>, order: seq<string>)
    requires forall k :: k in order ==> k in entries && FeesUnset(entries[k])
    ensures LinesGross(ApplyFees(bill, entries, order)) == SumRunning(bill, order, entries)
  {
    if order != [] {
      var n := |order| - 1;
      assert forall x :: x in order[..n] ==> x in order;
      GrossOfFees(bill, entries, order[..n]);
      ApplyFeesStep(bill, entries, order);
      var xs := ApplyFees(bill, entries, order[..n]);
      var e := entries[order[n]];
      assert (xs + [WithFees(bill, e)])[..|xs|] == xs;
      FeesOfRecord(bill, e);
    }
  }

  /** Adding fees keeps every base amount, so the lines carry the records' base total. */
  lemma {:induction false} LinesBaseOfFees(bill: Bill, entries: map<string, MemberTotal>, order: seq<string>)
    requires forall k :: k in order ==> k in entries
    ensures LinesBase(ApplyFees(bill, entries, order)) == SumBase(order, entries)
  {
    if order != [] {
      var n := |order| - 1;
      assert forall x :: x in order[..n] ==> x in order;
      LinesBaseOfFees(bill, entries, order[..n]);
      ApplyFeesStep(bill, entries, order);
      var xs := ApplyFees(bill, entries, order[..n]);
      assert (xs + [WithFees(bill, entries[order[n]])])[..|xs|] == xs;
    }
  }

  /**
   * Lines each rounded up by less than a cent sum to at least their unrounded
   * total and to less than a cent per line above it.
   */
  lemma {:induction false} NetsCoverGross(ms: seq<MemberTotal>)
    requires forall i :: 0 <= i < |ms| ==> Gross(ms[i]) <= ms[i].netAmount < Gross(ms[i]) + 0.01
    ensures LinesGross(ms) <= SumNet(ms) <= LinesGross(ms) + 0.01 * |ms| as real
    ensures ms != [] ==> SumNet(ms) < LinesGross(ms) + 0.01 * |ms| as real
  {
    if ms != [] {
      var n := |ms| - 1;
      assert forall i :: 0 <= i < n ==> ms[..n][i] == ms[i];
      NetsCoverGross(ms[..n]);
    }
  }

  /** Every summary line is its unrounded total rounded up to the cent. */
  lemma SummaryRoundsUp(bill: Bill)
    ensures var ms := SummaryOf(bill).members;
            forall i :: 0 <= i < |ms| ==> Gross(ms[i]) <= ms[i].netAmount < Gross(ms[i]) + 0.01
  {
    var t := AfterPass1(bill);
    var ms := SummaryOf(bill).members;
    forall i | 0 <= i < |ms| ensures Gross(ms[i]) <= ms[i].netAmount < Gross(ms[i]) + 0.01 {
      FeesOfRecord(bill, t.entries[t.order[i]]);
    }
  }

  /**
   * The grand total is the sum of the rounded net amounts: it covers the fees
   * charged on pass 1's base total and exceeds them by less than a cent per
   * summary line.
   */
  lemma GrandTotalBounds(bill: Bill)
    ensures var s := SummaryOf(bill);
            var due := RunningTotal(bill, TotalBase(AfterPass1(bill)));
            && s.grandTotal == SumNet(s.members)
            && due <= s.grandTotal <= due + 0.01 * |s.members| as real
            && (s.members != [] ==> s.grandTotal < due + 0.01 * |s.members| as real)
  {
    var t := AfterPass1(bill);
    SummaryRoundsUp(bill);
    NetsCoverGross(SummaryOf(bill).members);
    GrossOfFees(bill, t.entries, t.order);
    SumRunningIsRunningTotal(bill, t.order, t.entries);
  }

  /**
   * Merchant protection: when every split names a member and the owner is
   * enrolled, the collected grand total is at least the items' total with
   * service charge and VAT applied, and less than a cent per member above it.
   */
  lemma GrandTotalCoversBill(bill: Bill)
    requires MemberIdsNonEmpty(bill.members) && SplitsNameMembers(bill) && OwnerEnrolled(bill)
    ensures var due := RunningTotal(bill, ItemsTotal(bill.items));
            due <= SummaryOf(bill).grandTotal < due + 0.01 * |SummaryOf(bill).members| as real
  {
    BillConserves(bill);
    GrandTotalBounds(bill);
    assert SummaryOf(bill).members != [] by {
      var i :| 0 <= i < |bill.members| && KeyOf(bill.members[i]) == bill.ownerId;
      InitTotalsHasKey(bill.members, i);
    }
  }
}
