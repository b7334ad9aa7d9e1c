/**
 * The settlement engine of `BillsService.getSummary`: from a loaded bill
 * (its fee configuration, its items with their splits, and its members) it
 * computes what each member owes.
 *
 * Pass 1 splits every item by weight among its splits, or gives it whole to
 * the bill owner when nobody is assigned. Pass 2 adds the service charge, then
 * VAT on base plus service charge, and rounds the result up to the cent.
 *
 * The specification is a set of left folds (one per loop of the source);
 * `ComputeSummary` is the loop program, proved equal to them.
 */
module Settlement {
  import opened Wrappers
  import opened Seqs

  /** A bill member as loaded with the bill; `userId` is absent for a guest. */
  datatype Member = Member(id: string, userId: Option<string>, name: string)

  /** One split row of an item. `fixedAmount` is stored but settlement never reads it. */
  datatype Split = Split(memberId: string, weight: real, fixedAmount: Option<real>)

  /** An item with its precomputed `totalPrice` and its splits. */
  datatype Item = Item(name: string, totalPrice: real, splits: seq<Split>)

  /** The bill aggregate that `getSummary` loads: configuration, items, members. */
  datatype Bill = Bill(
    id: string,
    title: string,
    ownerId: string,
    vatRate: real,
    serviceChargeRate: real,
    isVatIncluded: bool,
    isServiceChargeIncluded: bool,
    items: seq<Item>,
    members: seq<Member>)

  /** One line of a member's itemised list; an unassigned item carries no weight. */
  datatype LineItem = LineItem(name: string, amount: real, weight: Option<real>)

  /** The record that `memberTotals[key]` holds for one member. */
  datatype MemberTotal = MemberTotal(
    memberId: string,
    userId: Option<string>,
    name: string,
    baseAmount: real,
    scAmount: real,
    vatAmount: real,
    netAmount: real,
    items: seq<LineItem>)

  /**
   * The `memberTotals` object: a map from settlement key to record, together
   * with the order in which its keys were first inserted. That is the order
   * in which `Object.values` lists string keys; JavaScript would list
   * integer-like keys such as "42" first, in ascending order, but settlement
   * keys are user ids and member ids, which are never integer-like.
   */
  datatype Totals = Totals(order: seq<string>, entries: map<string, MemberTotal>)

  /** What `getSummary` returns. */
  datatype Summary = Summary(
    billId: string,
    title: string,
    vat: real,
    sc: real,
    members: seq<MemberTotal>,
    grandTotal: real)

  /** The insertion order lists each key of the map exactly once. */
  ghost predicate Valid(t: Totals) {
    && NoDup(t.order)
    && (forall k :: k in t.order <==> k in t.entries)
  }

  /** The settlement key of a member: `m.userId || m.id` (an empty user id is falsy). */
  function KeyOf(m: Member): string {
    if m.userId.Some? && m.userId.value != "" then m.userId.value else m.id
  }

  /** The record a member starts with: every amount 0 and no items. */
  function Fresh(m: Member): MemberTotal {
    MemberTotal(m.id, m.userId, m.name, 0.0, 0.0, 0.0, 0.0, [])
  }

  /** A record that pass 1 has not touched beyond its base amount and items. */
  ghost predicate FeesUnset(e: MemberTotal) {
    e.scAmount == 0.0 && e.vatAmount == 0.0 && e.netAmount == 0.0
  }

  /** A record as it starts: every amount 0 and an empty item list. */
  ghost predicate Pristine(e: MemberTotal) {
    FeesUnset(e) && e.baseAmount == 0.0 && e.items == []
  }

  /** The index of the last member whose key is `members[i]`'s: the one whose record survives. */
  ghost predicate LastWithKey(members: seq<Member>, i: int)
    requires 0 <= i < |members|
  {
    forall j :: i < j < |members| ==> KeyOf(members[j]) != KeyOf(members[i])
  }

  /**
   * `memberTotals[key] = {...}` for every member, in order. A later member
   * with the same key replaces the record but keeps the key's first position.
   */
  function InitTotals(members: seq<Member>): (t: Totals)
    ensures Valid(t)
    ensures forall k :: k in t.entries ==> Pristine(t.entries[k])
  {
    if members == [] then Totals([], map[])
    else
      var n := |members| - 1;
      var t0 := InitTotals(members[..n]);
      var k := KeyOf(members[n]);
      Totals(if k in t0.entries then t0.order else t0.order + [k], t0.entries[k := Fresh(members[n])])
  }

  /** `bill.members.find(m => m.id === id)`: the first member with that id. */
  function FindMember(members: seq<Member>, id: string): (r: Option<Member>)
    ensures r.Some? ==> r.value in members && r.value.id == id
    ensures r.None? ==> forall i :: 0 <= i < |members| ==> members[i].id != id
  {
    if members == [] then None
    else if members[0].id == id then Some(members[0])
    else FindMember(members[1..], id)
  }

  /** `item.splits.reduce((sum, s) => sum + Number(s.weight), 0)`. */
  function TotalWeight(splits: seq<Split>): real {
    if splits == [] then 0.0
    else TotalWeight(splits[..|splits| - 1]) + splits[|splits| - 1].weight
  }

  /** The key a split is credited to (`targetKey`), when its member is found and the key is truthy. */
  function TargetKey(members: seq<Member>, s: Split): Option<string> {
    match FindMember(members, s.memberId)
    case None => None
    case Some(m) => if KeyOf(m) == "" then None else Some(KeyOf(m))
  }

  /** A split counts when its target key exists and has a record. */
  predicate Resolves(members: seq<Member>, t: Totals, s: Split) {
    TargetKey(members, s).Some? && TargetKey(members, s).value in t.entries
  }

  /** `(itemTotalPrice * weight) / totalWeight`: a split's part of an item. */
  function Share(totalPrice: real, weight: real, totalWeight: real): real
    requires totalWeight != 0.0
  {
    (totalPrice * weight) / totalWeight
  }

  /** Adds `amount` to a record's base and appends its line. */
  function Credit(e: MemberTotal, amount: real, line: LineItem): MemberTotal {
    e.(baseAmount := e.baseAmount + amount, items := e.items + [line])
  }

  /** The body of `item.splits.forEach(...)` for one split, the item's total weight being `w`. */
  function AllocateSplit(t: Totals, members: seq<Member>, item: Item, w: real, s: Split): Totals
    requires w != 0.0
  {
    if Resolves(members, t, s) then
      var k := TargetKey(members, s).value;
      var share := Share(item.totalPrice, s.weight, w);
      Totals(t.order, t.entries[k := Credit(t.entries[k], share, LineItem(item.name, share, Some(s.weight)))])
    else t
  }

  /** The `forEach` over an item's splits. Keys and their order never change. */
  function AllocateSplits(t: Totals, members: seq<Member>, item: Item, w: real, splits: seq<Split>): (r: Totals)
    requires w != 0.0
    ensures r.order == t.order && r.entries.Keys == t.entries.Keys
    ensures forall k :: k in t.entries && FeesUnset(t.entries[k]) ==> FeesUnset(r.entries[k])
  {
    if splits == [] then t
    else
      var n := |splits| - 1;
      AllocateSplit(AllocateSplits(t, members, item, w, splits[..n]), members, item, w, splits[n])
  }

  /** The label of an item that fell to the owner. */
  function UnassignedName(name: string): string {
    name + " (Unassigned)"
  }

  /** One iteration of `for (const item of bill.items)`. */
  function AllocateItem(t: Totals, members: seq<Member>, ownerId: string, item: Item): (r: Totals)
    ensures r.order == t.order && r.entries.Keys == t.entries.Keys
    ensures forall k :: k in t.entries && FeesUnset(t.entries[k]) ==> FeesUnset(r.entries[k])
  {
    var w := TotalWeight(item.splits);
    if w > 0.0 then AllocateSplits(t, members, item, w, item.splits)
    else if ownerId in t.entries then
      var line := LineItem(UnassignedName(item.name), item.totalPrice, None);
      Totals(t.order, t.entries[ownerId := Credit(t.entries[ownerId], item.totalPrice, line)])
    else t
  }

  /** Pass 1: the loop over all items. */
  function AllocateItems(t: Totals, members: seq<Member>, ownerId: string, items: seq<Item>): (r: Totals)
    ensures r.order == t.order && r.entries.Keys == t.entries.Keys
    ensures forall k :: k in t.entries && FeesUnset(t.entries[k]) ==> FeesUnset(r.entries[k])
  {
    if items == [] then t
    else
      var n := |items| - 1;
      AllocateItem(AllocateItems(t, members, ownerId, items[..n]), members, ownerId, items[n])
  }

  /** `Math.ceil(x * 100) / 100`: the amount rounded up to the cent. */
  function CeilCents(x: real): (r: real)
    ensures x <= r < x + 0.01
    ensures (r * 100.0).Floor as real == r * 100.0
  {
    var y := -(x * 100.0);
    var cents := -(y.Floor);
    assert y.Floor as real <= y < y.Floor as real + 1.0;
    assert cents as real * 0.01 == cents as real / 100.0;
    cents as real / 100.0
  }

  /** `x * (rate / 100)`: `rate` percent of `x`. */
  function Percent(x: real, rate: real): real {
    x * (rate / 100.0)
  }

  /** Service charge is added when it is not already included and its rate is positive. */
  predicate ScApplies(bill: Bill) {
    !bill.isServiceChargeIncluded && bill.serviceChargeRate > 0.0
  }

  /** VAT is added when it is not already included and its rate is positive. */
  predicate VatApplies(bill: Bill) {
    !bill.isVatIncluded && bill.vatRate > 0.0
  }

  /** The total a member owes before rounding: base, then service charge, then VAT on both. */
  function RunningTotal(bill: Bill, base: real): real {
    var afterSc := if ScApplies(bill) then base + Percent(base, bill.serviceChargeRate) else base;
    if VatApplies(bill) then afterSc + Percent(afterSc, bill.vatRate) else afterSc
  }

  /** The body of the `map` callback of pass 2 for one record. */
  function WithFees(bill: Bill, e: MemberTotal): MemberTotal {
    var sc := if ScApplies(bill) then Percent(e.baseAmount, bill.serviceChargeRate) else e.scAmount;
    var afterSc := if ScApplies(bill) then e.baseAmount + sc else e.baseAmount;
    var vat := if VatApplies(bill) then Percent(afterSc, bill.vatRate) else e.vatAmount;
    var current := if VatApplies(bill) then afterSc + vat else afterSc;
    e.(scAmount := sc, vatAmount := vat, netAmount := CeilCents(current))
  }

  /** Pass 2: `Object.values(memberTotals).map(...)`, in key insertion order. */
  function ApplyFees(bill: Bill, entries: map<string, MemberTotal>, order: seq<string>): (r: seq<MemberTotal>)
    requires forall k :: k in order ==> k in entries
    ensures |r| == |order|
    ensures forall i :: 0 <= i < |order| ==> r[i] == WithFees(bill, entries[order[i]])
  {
    if order == [] then []
    else
      var n := |order| - 1;
      ApplyFees(bill, entries, order[..n]) + [WithFees(bill, entries[order[n]])]
  }

  /** `summary.reduce((sum, m) => sum + m.netAmount, 0)`. */
  function SumNet(members: seq<MemberTotal>): real {
    if members == [] then 0.0
    else SumNet(members[..|members| - 1]) + members[|members| - 1].netAmount
  }

  /** The records after pass 1. */
  function AfterPass1(bill: Bill): (t: Totals)
    ensures Valid(t)
    ensures t.entries.Keys == InitTotals(bill.members).entries.Keys
    ensures forall k :: k in t.entries ==> FeesUnset(t.entries[k])
  {
    var t0 := InitTotals(bill.members);
    AllocateItems(t0, bill.members, bill.ownerId, bill.items)
  }

  /** The summary that `getSummary` returns for a loaded bill. */
  function SummaryOf(bill: Bill): Summary {
    var t := AfterPass1(bill);
    var members := ApplyFees(bill, t.entries, t.order);
    Summary(bill.id, bill.title, bill.vatRate, bill.serviceChargeRate, members, SumNet(members))
  }

  /** `bill.members.forEach(...)`: one record per settlement key. */
  method PrepareTotals(members: seq<Member>) returns (order: seq<string>, totals: map<string, MemberTotal>)
    ensures Totals(order, totals) == InitTotals(members)
  {
    order, totals := [], map[];
    for i := 0 to |members|
      invariant Totals(order, totals) == InitTotals(members[..i])
    {
      var m := members[i];
      var key := if m.userId.Some? && m.userId.value != "" then m.userId.value else m.id;
      if key !in totals {
        order := order + [key];
      }
      totals := totals[key := MemberTotal(m.id, m.userId, m.name, 0.0, 0.0, 0.0, 0.0, [])];
      assert members[..i + 1][..i] == members[..i];
    }
    assert members[..|members|] == members;
  }

  /** The `reduce` that sums an item's split weights. */
  method SumWeights(splits: seq<Split>) returns (totalWeight: real)
    ensures totalWeight == TotalWeight(splits)
  {
    totalWeight := 0.0;
    for k := 0 to |splits|
      invariant totalWeight == TotalWeight(splits[..k])
    {
      totalWeight := totalWeight + splits[k].weight;
      assert splits[..k + 1][..k] == splits[..k];
    }
    assert splits[..|splits|] == splits;
  }

  /** `item.splits.forEach(...)`: credits each resolving split its weighted share. */
  method ShareItem(members: seq<Member>, item: Item, totalWeight: real, order: seq<string>,
                   totals0: map<string, MemberTotal>)
    returns (totals: map<string, MemberTotal>)
    requires totalWeight > 0.0
    ensures Totals(order, totals) == AllocateSplits(Totals(order, totals0), members, item, totalWeight, item.splits)
  {
    totals := totals0;
    for k := 0 to |item.splits|
      invariant Totals(order, totals) == AllocateSplits(Totals(order, totals0), members, item, totalWeight, item.splits[..k])
    {
      var split := item.splits[k];
      ghost var prev := Totals(order, totals);
      var memberObj := FindMember(members, split.memberId);
      var targetKey: Option<string> := None;
      if memberObj.Some? {
        var mk := if memberObj.value.userId.Some? && memberObj.value.userId.value != ""
                  then memberObj.value.userId.value else memberObj.value.id;
        if mk != "" {
          targetKey := Some(mk);
        }
      }
      assert targetKey == TargetKey(members, split);
      if targetKey.Some? && targetKey.value in totals {
        var share := Share(item.totalPrice, split.weight, totalWeight);
        var data := totals[targetKey.value];
        data := data.(baseAmount := data.baseAmount + share);
        data := data.(items := data.items + [LineItem(item.name, share, Some(split.weight))]);
        totals := totals[targetKey.value := data];
      }
      assert Totals(order, totals) == AllocateSplit(prev, members, item, totalWeight, split);
      assert item.splits[..k + 1][..k] == item.splits[..k];
    }
    assert item.splits[..|item.splits|] == item.splits;
  }

  /** Pass 1: `for (const item of bill.items)`. */
  method AllocateAll(bill: Bill, order: seq<string>, totals0: map<string, MemberTotal>)
    returns (totals: map<string, MemberTotal>)
    ensures Totals(order, totals) == AllocateItems(Totals(order, totals0), bill.members, bill.ownerId, bill.items)
  {
    totals := totals0;
    for j := 0 to |bill.items|
      invariant Totals(order, totals) == AllocateItems(Totals(order, totals0), bill.members, bill.ownerId, bill.items[..j])
    {
      var item := bill.items[j];
      var totalWeight := SumWeights(item.splits);
      if totalWeight > 0.0 {
        totals := ShareItem(bill.members, item, totalWeight, order, totals);
      } else {
        var ownerKey := bill.ownerId;
        if ownerKey in totals {
          var data := totals[ownerKey];
          data := data.(baseAmount := data.baseAmount + item.totalPrice);
          data := data.(items := data.items + [LineItem(item.name + " (Unassigned)", item.totalPrice, None)]);
          totals := totals[ownerKey := data];
        }
      }
      assert bill.items[..j + 1][..j] == bill.items[..j];
    }
    assert bill.items[..|bill.items|] == bill.items;
  }

  /** Pass 2: the `map` over `Object.values(memberTotals)` that adds fees and rounds. */
  method AddFees(bill: Bill, order: seq<string>, totals: map<string, MemberTotal>)
    returns (members: seq<MemberTotal>)
    requires forall k :: k in order ==> k in totals
    ensures members == ApplyFees(bill, totals, order)
  {
    members := [];
    for j := 0 to |order|
      invariant members == ApplyFees(bill, totals, order[..j])
    {
      assert order[..j + 1][..j] == order[..j];
      var data := totals[order[j]];
      ghost var e := data;
      var currentTotal := data.baseAmount;
      if !bill.isServiceChargeIncluded && bill.serviceChargeRate > 0.0 {
        data := data.(scAmount := Percent(currentTotal, bill.serviceChargeRate));
        currentTotal := currentTotal + data.scAmount;
      }
      if !bill.isVatIncluded && bill.vatRate > 0.0 {
        data := data.(vatAmount := Percent(currentTotal, bill.vatRate));
        currentTotal := currentTotal + data.vatAmount;
      }
      data := data.(netAmount := CeilCents(currentTotal));
      assert data == WithFees(bill, e);
      members := members + [data];
    }
    assert order[..|order|] == order;
  }

  /** `summary.reduce((sum, m) => sum + m.netAmount, 0)`. */
  method SumNets(members: seq<MemberTotal>) returns (grandTotal: real)
    ensures grandTotal == SumNet(members)
  {
    grandTotal := 0.0;
    for j := 0 to |members|
      invariant grandTotal == SumNet(members[..j])
    {
      grandTotal := grandTotal + members[j].netAmount;
      assert members[..j + 1][..j] == members[..j];
    }
    assert members[..|members|] == members;
  }

  /** The computation of `getSummary` once the bill is loaded. */
  method ComputeSummary(bill: Bill) returns (summary: Summary)
    ensures summary == SummaryOf(bill)
  {
    var order, totals := PrepareTotals(bill.members);
    totals := AllocateAll(bill, order, totals);
    var members := AddFees(bill, order, totals);
    var grandTotal := SumNets(members);
    summary := Summary(bill.id, bill.title, bill.vatRate, bill.serviceChargeRate, members, grandTotal);
  }
}
