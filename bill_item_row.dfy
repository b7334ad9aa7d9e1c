/**
 * `BillItemRow`: one item of a bill, shown read-only or edited in place. The
 * edit form holds its own copy of name, price (as typed text) and quantity;
 * saving checks the name and the price before sending the update.
 */
module BillItemRow {
  import opened Wrappers
  import opened JsNumbers

  /** The item as the server sent it. */
  datatype BillItem = BillItem(id: string, name: string, price: real, quantity: int, totalPrice: real)

  /** The body of the update mutation. */
  datatype UpdateRequest = UpdateRequest(id: string, name: string, price: real, quantity: int)

  const NameRequiredMessage := "กรุณาใส่ชื่อรายการ"
  const BadPriceMessage := "ราคาไม่ถูกต้อง"

  /** The characters `String.prototype.trim` removes: white space and line terminators. */
  predicate IsTrimmed(c: char) {
    || c == ' ' || c == '\t' || c == '\n' || c == '\r' || c == '\U{000B}' || c == '\U{000C}'
    || c == '\U{00A0}' || c == '\U{1680}' || ('\U{2000}' <= c <= '\U{200A}')
    || c == '\U{2028}' || c == '\U{2029}' || c == '\U{202F}' || c == '\U{205F}'
    || c == '\U{3000}' || c == '\U{FEFF}'
  }

  /** `s.trim()`. */
  function Trim(s: string): (r: string)
    ensures |r| <= |s|
    decreases |s|
  {
    if s == [] then []
    else if IsTrimmed(s[0]) then Trim(s[1..])
    else if IsTrimmed(s[|s| - 1]) then Trim(s[..|s| - 1])
    else s
  }

  /** Trimming leaves nothing exactly when every character is white space. */
  lemma {:induction false} TrimEmpty(s: string)
    ensures Trim(s) == [] <==> forall i :: 0 <= i < |s| ==> IsTrimmed(s[i])
    decreases |s|
  {
    if s != [] {
      if IsTrimmed(s[0]) {
        TrimEmpty(s[1..]);
        assert forall i :: 0 < i < |s| ==> s[i] == s[1..][i - 1];
      } else if IsTrimmed(s[|s| - 1]) {
        TrimEmpty(s[..|s| - 1]);
        assert forall i :: 0 <= i < |s| - 1 ==> s[i] == s[..|s| - 1][i];
      }
    }
  }

  /**
   * `handleSave`'s checks: a blank name, then a price that parses to `NaN` or
   * a negative number, stop the save with a message; otherwise the request
   * carries the item id with the name as typed, the parsed price and the quantity.
   */
  function SaveOutcome(id: string, name: string, priceText: string, quantity: int, parseFloat: string -> JsNum)
    : (r: Result<UpdateRequest, string>)
    ensures (forall i :: 0 <= i < |name| ==> IsTrimmed(name[i])) ==> r == Err(NameRequiredMessage)
    ensures Trim(name) == [] ==> r == Err(NameRequiredMessage)
    ensures Trim(name) != [] && !(parseFloat(priceText).Num? && parseFloat(priceText).value >= 0.0) ==> r == Err(BadPriceMessage)
    ensures r.Ok? <==> Trim(name) != [] && parseFloat(priceText).Num? && parseFloat(priceText).value >= 0.0
    ensures r.Ok? ==> r.value == UpdateRequest(id, name, parseFloat(priceText).value, quantity)
    ensures r.Err? ==> r.error == NameRequiredMessage || r.error == BadPriceMessage
  {
    TrimEmpty(name);
    var numPrice := parseFloat(priceText);
    if Trim(name) == [] then Err(NameRequiredMessage)
    else if numPrice.NaN? || numPrice.value < 0.0 then Err(BadPriceMessage)
    else Ok(UpdateRequest(id, name, numPrice.value, quantity))
  }

  /** The row's state. `toText` and `parseFloat` stand for JavaScript's number formatting and parsing. */
  class ItemRowEditor {
    var item: BillItem
    var isEditing: bool
    var name: string
    var price: string
    var quantity: int
    const toText: real -> string
    const parseFloat: string -> JsNum

    /** The form fields hold the item's values. */
    ghost predicate ShowsItem()
      reads this
    {
      name == item.name && price == toText(item.price) && quantity == item.quantity
    }

    /** The `useState` initial values. */
    constructor (item: BillItem, toText: real -> string, parseFloat: string -> JsNum)
      ensures this.item == item && this.toText == toText && this.parseFloat == parseFloat
      ensures !isEditing && ShowsItem()
    {
      this.item := item;
      this.toText := toText;
      this.parseFloat := parseFloat;
      isEditing := false;
      name := item.name;
      price := toText(item.price);
      quantity := item.quantity;
    }

    /**
     * The effect on new server data: the form follows the item unless an edit
     * is under way. The effect depends on `[item, isEditing]`, so it also runs
     * when `Cancel` or `Saved` leaves edit mode; those methods include that
     * re-sync in their own contracts.
     */
    method ItemChanged(newItem: BillItem)
      modifies this
      ensures item == newItem && isEditing == old(isEditing)
      ensures !isEditing ==> ShowsItem()
      ensures isEditing ==> name == old(name) && price == old(price) && quantity == old(quantity)
    {
      item := newItem;
      if !isEditing {
        name := item.name;
        price := toText(item.price);
        quantity := item.quantity;
      }
    }

    /** `handleEditClick`: edit mode, starting from the item's values. */
    method EditClick()
      modifies this
      ensures isEditing && ShowsItem() && item == old(item)
    {
      isEditing := true;
      name := item.name;
      price := toText(item.price);
      quantity := item.quantity;
    }

    /** `handleCancel`: leave edit mode, discarding the edits. */
    method Cancel()
      modifies this
      ensures !isEditing && ShowsItem() && item == old(item)
    {
      isEditing := false;
      name := item.name;
      price := toText(item.price);
      quantity := item.quantity;
    }

    method SetName(text: string)
      modifies this
      ensures name == text && price == old(price) && quantity == old(quantity) && item == old(item) && isEditing == old(isEditing)
    {
      name := text;
    }

    method SetPrice(text: string)
      modifies this
      ensures price == text && name == old(name) && quantity == old(quantity) && item == old(item) && isEditing == old(isEditing)
    {
      price := text;
    }

    /** The minus button, disabled at 1 or below: the quantity never goes below 1 through it. */
    method Decrement()
      modifies this
      ensures quantity == (if old(quantity) <= 1 then old(quantity) else old(quantity) - 1)
      ensures old(quantity) >= 1 ==> quantity >= 1
      ensures name == old(name) && price == old(price) && item == old(item) && isEditing == old(isEditing)
    {
      if quantity > 1 {
        quantity := if 1 >= quantity - 1 then 1 else quantity - 1;
      }
    }

    /** The plus button. */
    method Increment()
      modifies this
      ensures quantity == old(quantity) + 1
      ensures name == old(name) && price == old(price) && item == old(item) && isEditing == old(isEditing)
    {
      quantity := quantity + 1;
    }

    /** `handleSave`: the request to send, or the message shown instead; the form is left as it is. */
    method Save() returns (r: Result<UpdateRequest, string>)
      ensures r == SaveOutcome(item.id, name, price, quantity, parseFloat)
    {
      var numPrice := parseFloat(price);
      if Trim(name) == [] {
        return Err(NameRequiredMessage);
      }
      if numPrice.NaN? || numPrice.value < 0.0 {
        return Err(BadPriceMessage);
      }
      r := Ok(UpdateRequest(item.id, name, numPrice.value, quantity));
    }

    /**
     * The mutation's `onSuccess`: back to the read-only row. Leaving edit mode
     * changes `isEditing`, one of the effect's dependencies, so the effect runs
     * and the fields are re-synced from the item.
     */
    method Saved()
      modifies this
      ensures !isEditing && ShowsItem() && item == old(item)
    {
      isEditing := false;
      name := item.name;
      price := toText(item.price);
      quantity := item.quantity;
    }
  }
}
