/**
 * `BillItemsService`: adding, editing and deleting the items of a bill,
 * keeping each item's `totalPrice` equal to price times quantity.
 */
module BillItemsService {
  import opened Wrappers
  import opened Seqs
  import opened Store

  /** What `create` receives, after its schema's defaults. */
  datatype CreateBillItemDto = CreateBillItemDto(
    billId: string,
    name: string,
    price: real,
    quantity: int,
    itemType: Option<ItemType>,
    applyVat: Option<bool>,
    applyServiceCharge: Option<bool>)

  /** What `update` receives: every field optional. */
  datatype UpdateBillItemDto = UpdateBillItemDto(
    name: Option<string>,
    price: Option<real>,
    quantity: Option<int>,
    itemType: Option<ItemType>,
    applyVat: Option<bool>,
    applyServiceCharge: Option<bool>)

  /** `bill.ownerId === userId || bill.members.some((m) => m.userId === userId)`. */
  predicate MayAddItems(bill: BillRow, members: seq<MemberRow>, userId: string) {
    bill.ownerId == userId || HasMember(members, bill.id, userId)
  }

  /** The row `create` inserts: only id, bill, name, price, quantity and the computed total are written. */
  function NewItem(id: string, dto: CreateBillItemDto): (it: ItemRow)
    ensures it.totalPrice == it.price * it.quantity as real
    ensures it.billId == dto.billId && it.name == dto.name && it.price == dto.price && it.quantity == dto.quantity
  {
    ItemRow(id, dto.billId, dto.name, dto.price, dto.quantity, dto.price * dto.quantity as real, None, None, None)
  }

  /** The row after `update`: the given fields replace the old ones and the total is recomputed. */
  function UpdatedItem(item: ItemRow, dto: UpdateBillItemDto): (it: ItemRow)
    ensures it.price == dto.price.GetOr(item.price) && it.quantity == dto.quantity.GetOr(item.quantity)
    ensures it.totalPrice == it.price * it.quantity as real
    ensures it.id == item.id && it.billId == item.billId && it.name == dto.name.GetOr(item.name)
  {
    var newPrice := dto.price.GetOr(item.price);
    var newQuantity := dto.quantity.GetOr(item.quantity);
    item.(name := dto.name.GetOr(item.name),
          price := newPrice,
          quantity := newQuantity,
          itemType := if dto.itemType.Some? then dto.itemType else item.itemType,
          applyVat := if dto.applyVat.Some? then dto.applyVat else item.applyVat,
          applyServiceCharge := if dto.applyServiceCharge.Some? then dto.applyServiceCharge else item.applyServiceCharge,
          totalPrice := newPrice * newQuantity as real)
  }

  /** Every row of the table has `totalPrice == price × quantity`. */
  ghost predicate TotalsMaintained(items: seq<ItemRow>) {
    forall i :: 0 <= i < |items| ==> items[i].totalPrice == items[i].price * items[i].quantity as real
  }

  /** The row with this id, when there is one, and its bill. */
  method LoadItem(db: Db, id: string) returns (r: Option<(nat, BillRow)>)
    requires db.Valid()
    ensures r.None? <==> forall i :: 0 <= i < |db.items| ==> db.items[i].id != id
    ensures r.Some? ==> r.value.0 < |db.items| && db.items[r.value.0].id == id
                        && r.value.1 in db.bills && r.value.1.id == db.items[r.value.0].billId
    ensures r.Some? ==> forall b :: b in db.bills && b.id == db.items[r.value.0].billId ==> b == r.value.1
  {
    var k := IndexOf(db.items, (it: ItemRow) => it.id == id);
    if k.None? {
      return None;
    }
    var item := db.items[k.value];
    assert BillExists(db.bills, item.billId);
    var bill := LoadBill(db, item.billId);
    if bill.None? {
      assert false;
    }
    r := Some((k.value, bill.value));
  }

  /** `create`: NotFound for an unknown bill, Forbidden for a caller who is neither owner nor member. */
  method Create(db: Db, userId: string, dto: CreateBillItemDto, newId: string) returns (r: Result<ItemRow, Error>)
    requires db.Valid()
    requires forall i :: 0 <= i < |db.items| ==> db.items[i].id != newId
    modifies db`items
    ensures db.Valid()
    ensures r.Err? ==> db.items == old(db.items)
    ensures !BillExists(db.bills, dto.billId) <==> r == Err(NotFound("Bill not found"))
    ensures forall b :: b in db.bills && b.id == dto.billId ==>
              if MayAddItems(b, db.members, userId) then
                r == Ok(NewItem(newId, dto)) && db.items == old(db.items) + [r.value]
              else r == Err(Forbidden("You are not a member of this bill"))
    ensures TotalsMaintained(old(db.items)) ==> TotalsMaintained(db.items)
  {
    var bill := LoadBill(db, dto.billId);
    if bill.None? {
      return Err(NotFound("Bill not found"));
    }
    var isOwner := bill.value.ownerId == userId;
    var isMember := HasMember(db.members, bill.value.id, userId);
    if !isOwner && !isMember {
      return Err(Forbidden("You are not a member of this bill"));
    }
    var item := NewItem(newId, dto);
    assert TotalsMaintained(db.items) ==> TotalsMaintained(db.items + [item]);
    PairwiseAppend(db.items, item, DistinctItems);
    ItemAppendReferenced(db.bills, db.members, db.items, item);
    db.items := db.items + [item];
    r := Ok(item);
  }

  /** `update`: NotFound for an unknown item, Forbidden unless the caller owns its bill. */
  method Update(db: Db, id: string, userId: string, dto: UpdateBillItemDto) returns (r: Result<ItemRow, Error>)
    requires db.Valid()
    modifies db`items
    ensures db.Valid()
    ensures r.Err? ==> db.items == old(db.items)
    ensures (forall i :: 0 <= i < |old(db.items)| ==> old(db.items)[i].id != id) <==> r == Err(NotFound("Item not found"))
    ensures forall i, b :: 0 <= i < |old(db.items)| && old(db.items)[i].id == id && b in db.bills && b.id == old(db.items)[i].billId ==>
              if b.ownerId == userId then
                r == Ok(UpdatedItem(old(db.items)[i], dto)) && db.items == old(db.items)[i := r.value]
              else r == Err(Forbidden("Only bill owner can update items"))
    ensures TotalsMaintained(old(db.items)) ==> TotalsMaintained(db.items)
  {
    var found := LoadItem(db, id);
    if found.None? {
      return Err(NotFound("Item not found"));
    }
    var (k, bill) := found.value;
    if bill.ownerId != userId {
      return Err(Forbidden("Only bill owner can update items"));
    }
    var item := UpdatedItem(db.items[k], dto);
    db.items := db.items[k := item];
    r := Ok(item);
  }

  /** `remove`: NotFound for an unknown item, Forbidden unless the caller owns its bill; else the row is deleted. */
  method Remove(db: Db, id: string, userId: string) returns (r: Result<ItemRow, Error>)
    requires db.Valid()
    modifies db`items
    ensures db.Valid()
    ensures r.Err? ==> db.items == old(db.items)
    ensures (forall i :: 0 <= i < |old(db.items)| ==> old(db.items)[i].id != id) <==> r == Err(NotFound("Item not found"))
    ensures forall i, b :: 0 <= i < |old(db.items)| && old(db.items)[i].id == id && b in db.bills && b.id == old(db.items)[i].billId ==>
              if b.ownerId == userId then
                r == Ok(old(db.items)[i]) && db.items == old(db.items)[..i] + old(db.items)[i + 1..]
              else r == Err(Forbidden("Only bill owner can delete items"))
    ensures TotalsMaintained(old(db.items)) ==> TotalsMaintained(db.items)
  {
    var found := LoadItem(db, id);
    if found.None? {
      return Err(NotFound("Item not found"));
    }
    var (k, bill) := found.value;
    if bill.ownerId != userId {
      return Err(Forbidden("Only bill owner can delete items"));
    }
    var item := db.items[k];
    RemoveAtPairwise(db.items, k);
    ItemsSubsetReferenced(db.bills, db.members, db.items, db.items[..k] + db.items[k + 1..]);
    db.items := db.items[..k] + db.items[k + 1..];
    r := Ok(item);
  }

  lemma RemoveAtPairwise(items: seq<ItemRow>, k: nat)
    requires Pairwise(items, DistinctItems) && k < |items|
    ensures Pairwise(items[..k] + items[k + 1..], DistinctItems)
    ensures forall x :: x in items[..k] + items[k + 1..] ==> x in items
    ensures TotalsMaintained(items) ==> TotalsMaintained(items[..k] + items[k + 1..])
  {
    var r := items[..k] + items[k + 1..];
    forall i, j | 0 <= i < j < |r| ensures DistinctItems(r[i], r[j]) {
      var i' := if i < k then i else i + 1;
      var j' := if j < k then j else j + 1;
      assert r[i] == items[i'] && r[j] == items[j'];
    }
    forall i | 0 <= i < |r| ensures r[i] == items[if i < k then i else i + 1] {
    }
  }
}
