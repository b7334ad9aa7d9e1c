/**
 * `ScanReceiptDialog`: the list of items read from a receipt, which the
 * user corrects (name, price, quantity, deletion) before the remaining
 * items are added to the bill one request each.
 */
module ScanReceipt {
  import opened Wrappers
  import opened JsNumbers

  /** One line read from the receipt, as edited; price and quantity come from number inputs. */
  datatype OcrItem = OcrItem(name: string, price: JsNum, quantity: JsNum)

  /** The edits the row controls make through `updateItem`: one field each. */
  datatype Edit = SetName(name: string) | SetPrice(price: JsNum) | SetQuantity(quantity: JsNum)

  /** `{ ...item, [field]: value }`. */
  function Applied(item: OcrItem, e: Edit): (r: OcrItem)
    ensures e.SetName? ==> r == item.(name := e.name)
    ensures e.SetPrice? ==> r == item.(price := e.price)
    ensures e.SetQuantity? ==> r == item.(quantity := e.quantity)
  {
    match e
    case SetName(n) => item.(name := n)
    case SetPrice(p) => item.(price := p)
    case SetQuantity(q) => item.(quantity := q)
  }

  /** `items.filter((_, i) => i !== index)`. */
  function RemoveAt(items: seq<OcrItem>, index: nat): (r: seq<OcrItem>)
    ensures index < |items| ==> |r| == |items| - 1
    ensures index >= |items| ==> r == items
    ensures forall i :: 0 <= i < |r| ==> r[i] == items[if i < index then i else i + 1]
  {
    if index < |items| then items[..index] + items[index + 1..] else items
  }

  /** `item.price * item.quantity`. */
  function Line(item: OcrItem): JsNum {
    Mul(item.price, item.quantity)
  }

  /** `items.reduce((sum, item) => sum + item.price * item.quantity, 0)`. */
  function TotalAmount(items: seq<OcrItem>): (t: JsNum)
    ensures items == [] ==> t == Num(0.0)
  {
    if items == [] then Num(0.0) else Add(TotalAmount(items[..|items| - 1]), Line(items[|items| - 1]))
  }

  /** Every line has a numeric price and quantity. */
  ghost predicate AllNumeric(items: seq<OcrItem>) {
    forall i :: 0 <= i < |items| ==> items[i].price.Num? && items[i].quantity.Num?
  }

  /** The total is numeric exactly when every line is; one `NaN` input spoils the whole total. */
  lemma {:induction false} TotalNumeric(items: seq<OcrItem>)
    ensures TotalAmount(items).Num? <==> AllNumeric(items)
  {
    if items != [] {
      var init := items[..|items| - 1];
      TotalNumeric(init);
      assert forall i :: 0 <= i < |init| ==> init[i] == items[i];
    }
  }

  /** Removing a line lowers the total by that line's amount. */
  lemma {:induction false} TotalAfterRemove(items: seq<OcrItem>, index: nat)
    requires AllNumeric(items) && index < |items|
    ensures TotalAmount(items).Num? && TotalAmount(RemoveAt(items, index)).Num?
    ensures TotalAmount(items).value == TotalAmount(RemoveAt(items, index)).value + Line(items[index]).value
  {
    var n := |items|;
    var init := items[..n - 1];
    assert forall i :: 0 <= i < |init| ==> init[i] == items[i];
    TotalNumeric(items);
    TotalNumeric(init);
    if index == n - 1 {
      assert RemoveAt(items, index) == init;
    } else {
      TotalAfterRemove(init, index);
      var r := RemoveAt(items, index);
      assert r[..|r| - 1] == RemoveAt(init, index);
      assert r[|r| - 1] == items[n - 1];
      TotalNumeric(RemoveAt(init, index));
    }
  }

  /** The minus button: `Math.max(1, quantity - 1)`. */
  function Decremented(q: JsNum): (r: JsNum)
    ensures r.Num? <==> q.Num?
    ensures r.Num? ==> r.value >= 1.0
    ensures q.Num? && q.value >= 2.0 ==> r == Num(q.value - 1.0)
    ensures q.Num? && q.value < 2.0 ==> r == Num(1.0)
  {
    Max(Num(1.0), Sub(q, Num(1.0)))
  }

  /** The plus button: `quantity + 1`. */
  function Incremented(q: JsNum): (r: JsNum)
    ensures r.Num? <==> q.Num?
    ensures r.Num? ==> r.value == q.value + 1.0
  {
    Add(q, Num(1.0))
  }

  /** The name sent for a line left without one. */
  const PlaceholderName := "รายการไม่ระบุชื่อ"

  /** The body of one `addItem` call. */
  datatype AddItemRequest = AddItemRequest(name: string, price: real, quantity: real)

  /** `name || placeholder`, `Number(price) || 0`, `Number(quantity) || 1`. */
  function RequestOf(item: OcrItem): (r: AddItemRequest)
    ensures r.name != ""
    ensures item.name != "" ==> r.name == item.name
    ensures r.price == (if Truthy(item.price) then item.price.value else 0.0)
    ensures r.quantity == (if Truthy(item.quantity) then item.quantity.value else 1.0)
    ensures r.quantity != 0.0
  {
    AddItemRequest(if item.name == "" then PlaceholderName else item.name,
                   JsNumbers.OrElse(item.price, 0.0), JsNumbers.OrElse(item.quantity, 1.0))
  }

  /** `handleConfirmAdd`: nothing for an empty list, otherwise one request per remaining line, in order. */
  function ConfirmRequests(items: seq<OcrItem>): (r: Option<seq<AddItemRequest>>)
    ensures r.None? <==> items == []
    ensures r.Some? ==> |r.value| == |items| && forall i :: 0 <= i < |items| ==> r.value[i] == RequestOf(items[i])
  {
    if items == [] then None else Some(seq(|items|, i requires 0 <= i < |items| => RequestOf(items[i])))
  }

  /** The dialog's editable list, the `editableItems` state. */
  class ReceiptEditor {
    var items: seq<OcrItem>

    /** The list a successful scan puts in place. */
    constructor (scanned: seq<OcrItem>)
      ensures items == scanned
    {
      items := scanned;
    }

    /** `updateItem`: one field of one line changes; the length and every other line stay. */
    method UpdateItem(index: nat, e: Edit)
      requires index < |items|
      modifies this
      ensures items == old(items)[index := Applied(old(items)[index], e)]
      ensures |items| == |old(items)| && forall j :: 0 <= j < |items| && j != index ==> items[j] == old(items)[j]
    {
      var newItems := items;
      newItems := newItems[index := Applied(newItems[index], e)];
      items := newItems;
    }

    /** `removeItem`: the line goes, the others keep their order. */
    method RemoveItem(index: nat)
      modifies this
      ensures items == RemoveAt(old(items), index)
    {
      items := RemoveAt(items, index);
    }

    /** The minus button of a line: the quantity never drops below 1. */
    method DecrementQuantity(index: nat)
      requires index < |items|
      modifies this
      ensures items == old(items)[index := old(items)[index].(quantity := Decremented(old(items)[index].quantity))]
      ensures items[index].quantity.Num? ==> items[index].quantity.value >= 1.0
    {
      UpdateItem(index, SetQuantity(Decremented(items[index].quantity)));
    }

    /** The plus button of a line. */
    method IncrementQuantity(index: nat)
      requires index < |items|
      modifies this
      ensures items == old(items)[index := old(items)[index].(quantity := Incremented(old(items)[index].quantity))]
    {
      UpdateItem(index, SetQuantity(Incremented(items[index].quantity)));
    }
  }
}
